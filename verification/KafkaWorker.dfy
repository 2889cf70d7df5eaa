/** The exactly-once job protocol: a consumer group of workers reads jobs off a partitioned log, writes one
    row per job to a shared table, and commits its offsets only afterwards. Workers crash, partitions move
    between workers at any moment, and messages are delivered again. */
module KafkaWorker {

  datatype Key = Key(runId: int, instance: string, repeat: int)
  datatype Job = Job(key: Key, version: string, model: string)
  datatype Row = Row(version: string, result: string)

  /** How far a worker is with the message at offset `o` of partition `p`. */
  datatype Progress = Fetched | Missing | Evaluated(row: Row) | Inserted(row: Row) | Recorded

  datatype Stage = Idle | Busy(p: nat, o: nat, progress: Progress)

  /** `owned` maps each assigned partition to the next offset to read. */
  datatype Worker = Worker(owned: map<nat, nat>, stage: Stage)

  datatype State = State(log: seq<seq<Job>>, committed: seq<nat>, rows: map<Key, Row>, workers: seq<Worker>)

  // ---------------------------------------------------------------- the results table

  /** INSERT ... ON CONFLICT DO NOTHING. */
  function InsertIfAbsent(rows: map<Key, Row>, k: Key, row: Row): map<Key, Row>
  {
    if k in rows then rows else rows[k := row]
  }

  /** The table as the worker's two queries use it. */
  class Results {
    var rows: map<Key, Row>

    method AlreadyDone(k: Key) returns (done: bool)
      ensures done <==> k in rows
    {
      done := k in rows;
    }

    method WriteResult(k: Key, row: Row)
      modifies this
      ensures rows == InsertIfAbsent(old(rows), k, row)
      ensures k in rows && forall j :: j in old(rows) ==> j in rows && rows[j] == old(rows[j])
    {
      if k !in rows {
        rows := rows[k := row];
      }
    }
  }

  /** The table after a worker has gone through `jobs` by itself. */
  function RecordAll(rows: map<Key, Row>, jobs: seq<Job>, run: Job -> string): map<Key, Row>
  {
    if jobs == [] then rows else
      var n := |jobs| - 1;
      InsertIfAbsent(RecordAll(rows, jobs[..n], run), jobs[n].key, Row(jobs[n].version, run(jobs[n])))
  }

  /** Rows already there stay; every job gets a row; a new row is the first such job's own result. */
  lemma {:induction false} RecordAllOnce(rows: map<Key, Row>, jobs: seq<Job>, run: Job -> string, k: Key)
    ensures var t := RecordAll(rows, jobs, run);
            && (k in rows ==> k in t && t[k] == rows[k])
            && (k in t && k !in rows ==> exists i :: 0 <= i < |jobs| && jobs[i].key == k && t[k] == Row(jobs[i].version, run(jobs[i]))
                                                     && forall j :: 0 <= j < i ==> jobs[j].key != k)
            && (k !in t ==> forall j :: 0 <= j < |jobs| ==> jobs[j].key != k)
  {
    if jobs != [] {
      var n := |jobs| - 1;
      RecordAllOnce(rows, jobs[..n], run, k);
      var u, t := RecordAll(rows, jobs[..n], run), RecordAll(rows, jobs, run);
      if k in t && k !in rows {
        if k in u {
          var i :| 0 <= i < n && jobs[..n][i].key == k && t[k] == Row(jobs[..n][i].version, run(jobs[..n][i]))
                   && forall j :: 0 <= j < i ==> jobs[..n][j].key != k;
          assert jobs[i] == jobs[..n][i] && forall j :: 0 <= j < i ==> jobs[j] == jobs[..n][j];
        } else {
          assert jobs[n].key == k && forall j :: 0 <= j < n ==> jobs[j] == jobs[..n][j];
        }
      }
      if k !in t {
        assert forall j :: 0 <= j < n ==> jobs[j] == jobs[..n][j];
      }
    }
  }

  lemma RecordOneMore(rows: map<Key, Row>, jobs: seq<Job>, job: Job, run: Job -> string)
    ensures RecordAll(rows, jobs + [job], run) == InsertIfAbsent(RecordAll(rows, jobs, run), job.key, Row(job.version, run(job)))
  {
    assert (jobs + [job])[..|jobs|] == jobs;
  }

  /** One worker on one partition, left alone: check, run, write, and only then commit the offset. */
  class Consumer {
    const results: Results
    var position: nat
    var committed: nat

    constructor (results: Results, committed: nat)
      ensures this.results == results && this.committed == position == committed
    {
      this.results, this.committed, position := results, committed, committed;
    }

    method Consume(log: seq<Job>, run: Job -> string)
      requires position <= |log|
      modifies this, results
      ensures position == |log| && (old(position) < |log| ==> committed == |log|)
      ensures results.rows == RecordAll(old(results.rows), log[old(position)..], run)
    {
      ghost var start := position;
      assert log[start..start] == [];
      while position < |log|
        invariant start <= position <= |log| && (start < position ==> committed == position)
        invariant results.rows == RecordAll(old(results.rows), log[start..position], run)
      {
        var job := log[position];
        assert log[start..position + 1] == log[start..position] + [job];
        RecordOneMore(old(results.rows), log[start..position], job, run);
        position := position + 1;
        var done := results.AlreadyDone(job.key);
        if done {
          committed := position;
          continue;
        }
        var result := run(job);
        results.WriteResult(job.key, Row(job.version, result));
        committed := position;
      }
      assert log[start..|log|] == log[start..];
    }
  }

  // ---------------------------------------------------------------- steps

  /** What can happen next, in any order. The consumer loop of worker `w` is Poll, Check and then either
      Commit, or Evaluate, Insert, Store and Commit. */
  datatype Event =
    | Enqueue(q: nat, job: Job)
    | Assign(w: nat, q: nat)        // the group coordinator gives the partition to a worker
    | Revoke(w: nat, q: nat)        // ... or takes it away, whatever the worker is doing
    | Poll(w: nat, q: nat)
    | Check(w: nat)
    | Evaluate(w: nat, result: string)
    | Insert(w: nat)                // inside the worker's own transaction: nobody sees it yet
    | Store(w: nat)                 // the transaction commits
    | Commit(w: nat)                // offsets of every partition the worker owns
    | Crash(w: nat)                 // also a failed commit, or an exception from the job

  ghost predicate BusyAt(s: State, w: nat)
  {
    w < |s.workers| && s.workers[w].stage.Busy? &&
    s.workers[w].stage.p < |s.log| && s.workers[w].stage.o < |s.log[s.workers[w].stage.p]|
  }

  function JobAt(s: State, w: nat): Job
    requires BusyAt(s, w)
  {
    s.log[s.workers[w].stage.p][s.workers[w].stage.o]
  }

  ghost predicate Enabled(s: State, e: Event)
  {
    |s.committed| == |s.log| &&
    match e
    case Enqueue(q, _) => q < |s.log|
    case Assign(w, q) => w < |s.workers| && q < |s.log| && forall v :: 0 <= v < |s.workers| ==> q !in s.workers[v].owned
    case Revoke(w, q) => w < |s.workers| && q in s.workers[w].owned
    case Poll(w, q) => w < |s.workers| && s.workers[w].stage.Idle? && q < |s.log| && q in s.workers[w].owned && s.workers[w].owned[q] < |s.log[q]|
    case Check(w) => BusyAt(s, w) && s.workers[w].stage.progress.Fetched?
    case Evaluate(w, _) => BusyAt(s, w) && s.workers[w].stage.progress.Missing?
    case Insert(w) => BusyAt(s, w) && s.workers[w].stage.progress.Evaluated?
    case Store(w) => BusyAt(s, w) && s.workers[w].stage.progress.Inserted?
    case Commit(w) => BusyAt(s, w) && s.workers[w].stage.progress.Recorded?
    case Crash(w) => w < |s.workers|
  }

  function With(s: State, w: nat, k: Worker): State
    requires w < |s.workers|
  {
    s.(workers := s.workers[w := k])
  }

  function Advance(s: State, w: nat, progress: Progress): State
    requires w < |s.workers| && s.workers[w].stage.Busy?
  {
    With(s, w, s.workers[w].(stage := s.workers[w].stage.(progress := progress)))
  }

  function Committed(s: State, w: nat): seq<nat>
    requires w < |s.workers|
  {
    seq(|s.committed|, p requires 0 <= p < |s.committed| => if p in s.workers[w].owned then s.workers[w].owned[p] else s.committed[p])
  }

  function Next(s: State, e: Event): State
    requires Enabled(s, e)
  {
    match e
    case Enqueue(q, job) => s.(log := s.log[q := s.log[q] + [job]])
    case Assign(w, q) => With(s, w, s.workers[w].(owned := s.workers[w].owned[q := s.committed[q]]))
    case Revoke(w, q) => With(s, w, s.workers[w].(owned := s.workers[w].owned - {q}))
    case Poll(w, q) =>
      var o := s.workers[w].owned[q];
      With(s, w, Worker(s.workers[w].owned[q := o + 1], Busy(q, o, Fetched)))
    case Check(w) => Advance(s, w, if JobAt(s, w).key in s.rows then Recorded else Missing)
    case Evaluate(w, result) => Advance(s, w, Evaluated(Row(JobAt(s, w).version, result)))
    case Insert(w) => Advance(s, w, Inserted(s.workers[w].stage.progress.row))
    case Store(w) =>
      Advance(s, w, Recorded).(rows := InsertIfAbsent(s.rows, JobAt(s, w).key, s.workers[w].stage.progress.row))
    case Commit(w) => With(s, w, s.workers[w].(stage := Idle)).(committed := Committed(s, w))
    case Crash(w) => With(s, w, Worker(map[], Idle))
  }

  /** Nothing consumed or recorded yet. */
  function Start(partitions: nat, workers: nat): State
  {
    State(seq(partitions, i => []), seq(partitions, i => 0), map[], seq(workers, i => Worker(map[], Idle)))
  }

  // ---------------------------------------------------------------- the invariant

  ghost predicate HasRow(s: State, p: nat, o: nat)
  {
    p < |s.log| && o < |s.log[p]| && s.log[p][o].key in s.rows
  }

  /** Worker `w` is still at work on this message. */
  ghost predicate InHand(s: State, w: nat, p: nat, o: nat)
    requires w < |s.workers|
  {
    s.workers[w].stage.Busy? && s.workers[w].stage.p == p && s.workers[w].stage.o == o && !s.workers[w].stage.progress.Recorded?
  }

  /** What a worker has read of a partition it owns is recorded, but for the message in its hands. */
  ghost predicate OwnerOk(s: State, w: nat, p: nat)
    requires w < |s.workers| && p in s.workers[w].owned
  {
    && p < |s.log| && p < |s.committed| && s.committed[p] <= s.workers[w].owned[p] <= |s.log[p]|
    && forall o: nat :: o < s.workers[w].owned[p] ==> HasRow(s, p, o) || InHand(s, w, p, o)
  }

  ghost predicate WorkerOk(s: State, w: nat)
    requires w < |s.workers|
  {
    && (forall p {:trigger p in s.workers[w].owned} :: p in s.workers[w].owned ==> OwnerOk(s, w, p))
    && (s.workers[w].stage.Busy? ==> BusyAt(s, w) && ProgressOk(s, w))
  }

  ghost predicate ProgressOk(s: State, w: nat)
    requires BusyAt(s, w)
  {
    match s.workers[w].stage.progress
    case Evaluated(row) => row.version == JobAt(s, w).version
    case Inserted(row) => row.version == JobAt(s, w).version
    case Recorded => JobAt(s, w).key in s.rows
    case _ => true
  }

  ghost predicate Inv(s: State)
  {
    && |s.committed| == |s.log|
    && (forall p: nat, o: nat :: p < |s.log| && o < s.committed[p] ==> HasRow(s, p, o))
    && (forall w: nat {:trigger WorkerOk(s, w)} :: w < |s.workers| ==> WorkerOk(s, w))
    && OwnersApart(s)
    && (forall k {:trigger k in s.rows} :: k in s.rows ==> Enqueued(s.log, k, s.rows[k].version))
  }

  /** A job with this key and dataset version has been put on the log. */
  ghost predicate Enqueued(log: seq<seq<Job>>, k: Key, version: string)
  {
    exists p: nat, o: nat {:trigger log[p][o]} :: p < |log| && o < |log[p]| && log[p][o].key == k && log[p][o].version == version
  }

  ghost predicate Possible(s: State, es: seq<Event>)
    decreases |es|
  {
    es == [] || (Enabled(s, es[0]) && Possible(Next(s, es[0]), es[1..]))
  }

  function Run(s: State, es: seq<Event>): State
    requires Possible(s, es)
    decreases |es|
  {
    if es == [] then s else Run(Next(s, es[0]), es[1..])
  }

  // ---------------------------------------------------------------- one step

  /** The log and the table only ever grow. */
  ghost predicate Grows(s: State, t: State)
  {
    && |t.log| == |s.log| && |t.committed| == |s.committed| && |t.workers| == |s.workers|
    && (forall p {:trigger t.log[p]} :: 0 <= p < |s.log| ==> |s.log[p]| <= |t.log[p]| && t.log[p][..|s.log[p]|] == s.log[p])
    && (forall k {:trigger k in t.rows} :: k in s.rows ==> k in t.rows && t.rows[k] == s.rows[k])
  }

  lemma RowKept(s: State, t: State, p: nat, o: nat)
    requires Grows(s, t) && HasRow(s, p, o)
    ensures HasRow(t, p, o)
  {
    assert t.log[p][o] == t.log[p][..|s.log[p]|][o];
  }

  /** A worker the step did not touch is as consistent as before. */
  lemma WorkerKept(s: State, t: State, w: nat)
    requires Grows(s, t) && w < |s.workers| && t.workers[w] == s.workers[w] && WorkerOk(s, w)
    requires forall p {:trigger t.committed[p]} :: 0 <= p < |s.committed| && p in s.workers[w].owned ==> t.committed[p] == s.committed[p]
    ensures WorkerOk(t, w)
  {
    forall p | p in t.workers[w].owned ensures OwnerOk(t, w, p) {
      assert OwnerOk(s, w, p);
      forall o: nat | o < t.workers[w].owned[p] ensures HasRow(t, p, o) || InHand(t, w, p, o) {
        if HasRow(s, p, o) { RowKept(s, t, p, o); } else { assert InHand(s, w, p, o); }
      }
      var _ := t.log[p];
      var _ := t.committed[p];
    }
    if s.workers[w].stage.Busy? {
      var p, o := s.workers[w].stage.p, s.workers[w].stage.o;
      assert t.log[p][o] == t.log[p][..|s.log[p]|][o];
    }
  }

  /** The worker an event is about, if any. */
  function Actor(e: Event): int
  {
    match e
    case Enqueue(_, _) => -1
    case Assign(w, _) => w
    case Revoke(w, _) => w
    case Poll(w, _) => w
    case Check(w) => w
    case Evaluate(w, _) => w
    case Insert(w) => w
    case Store(w) => w
    case Commit(w) => w
    case Crash(w) => w
  }

  lemma StepGrows(s: State, e: Event)
    requires Inv(s) && Enabled(s, e)
    ensures Grows(s, Next(s, e))
    ensures forall v {:trigger Next(s, e).workers[v]} :: 0 <= v < |s.workers| && v != Actor(e) ==> Next(s, e).workers[v] == s.workers[v]
  {
  }

  lemma AssignActor(s: State, w: nat, q: nat)
    requires Inv(s) && Enabled(s, Assign(w, q))
    ensures WorkerOk(Next(s, Assign(w, q)), w)
  {
    var t := Next(s, Assign(w, q));
    assert WorkerOk(s, w);
    forall p | p in t.workers[w].owned ensures OwnerOk(t, w, p) {
      if p != q { assert OwnerOk(s, w, p); }
      forall o: nat | o < t.workers[w].owned[p] ensures HasRow(t, p, o) || InHand(t, w, p, o) {
        assert HasRow(s, p, o) || InHand(s, w, p, o);
      }
      CommittedWithin(s, q);
    }
  }

  lemma CommittedWithin(s: State, q: nat)
    requires Inv(s) && q < |s.log|
    ensures s.committed[q] <= |s.log[q]|
  {
    var o: nat := |s.log[q]|;
    assert o < s.committed[q] ==> HasRow(s, q, o);
  }

  lemma RevokeActor(s: State, w: nat, q: nat)
    requires Inv(s) && Enabled(s, Revoke(w, q))
    ensures WorkerOk(Next(s, Revoke(w, q)), w)
  {
    var t := Next(s, Revoke(w, q));
    assert WorkerOk(s, w);
    forall p | p in t.workers[w].owned ensures OwnerOk(t, w, p) {
      assert OwnerOk(s, w, p);
      forall o: nat | o < t.workers[w].owned[p] ensures HasRow(t, p, o) || InHand(t, w, p, o) {
        assert HasRow(s, p, o) || InHand(s, w, p, o);
      }
    }
  }

  lemma PollActor(s: State, w: nat, q: nat)
    requires Inv(s) && Enabled(s, Poll(w, q))
    ensures WorkerOk(Next(s, Poll(w, q)), w)
  {
    var t := Next(s, Poll(w, q));
    assert WorkerOk(s, w);
    forall p | p in t.workers[w].owned ensures OwnerOk(t, w, p) {
      assert OwnerOk(s, w, p);
      forall o: nat | o < t.workers[w].owned[p] ensures HasRow(t, p, o) || InHand(t, w, p, o) {
        if p != q || o < s.workers[w].owned[q] { assert HasRow(s, p, o); }
      }
    }
  }

  /** Moving on with the message in hand, unless it gets recorded, leaves the same message in hand. */
  lemma AdvanceActor(s: State, w: nat, progress: Progress, rows: map<Key, Row>)
    requires Inv(s) && BusyAt(s, w) && !s.workers[w].stage.progress.Recorded?
    requires forall k {:trigger k in rows} :: k in s.rows ==> k in rows && rows[k] == s.rows[k]
    requires ProgressOk(Advance(s, w, progress).(rows := rows), w)
    ensures WorkerOk(Advance(s, w, progress).(rows := rows), w)
  {
    var t := Advance(s, w, progress).(rows := rows);
    assert WorkerOk(s, w);
    forall p | p in t.workers[w].owned ensures OwnerOk(t, w, p) {
      assert OwnerOk(s, w, p);
      forall o: nat | o < t.workers[w].owned[p] ensures HasRow(t, p, o) || InHand(t, w, p, o) {
        if HasRow(s, p, o) { assert s.log[p][o].key in rows; } else { assert InHand(s, w, p, o); }
      }
    }
  }

  lemma CommitActor(s: State, w: nat)
    requires Inv(s) && Enabled(s, Commit(w))
    ensures WorkerOk(Next(s, Commit(w)), w)
    ensures forall p, o: nat {:trigger HasRow(Next(s, Commit(w)), p, o)} :: p in s.workers[w].owned && o < s.workers[w].owned[p] ==> HasRow(Next(s, Commit(w)), p, o)
  {
    var t := Next(s, Commit(w));
    assert WorkerOk(s, w);
    forall p, o: nat | p in s.workers[w].owned && o < s.workers[w].owned[p] ensures HasRow(t, p, o) {
      assert OwnerOk(s, w, p);
      assert HasRow(s, p, o) || InHand(s, w, p, o);
    }
    forall p | p in t.workers[w].owned ensures OwnerOk(t, w, p) {
      assert OwnerOk(s, w, p);
    }
  }

  lemma ActorKept(s: State, e: Event, w: nat)
    requires Inv(s) && Enabled(s, e) && w < |s.workers| && Actor(e) == w
    ensures WorkerOk(Next(s, e), w)
  {
    assert WorkerOk(s, w);
    match e
    case Assign(_, q) => AssignActor(s, w, q);
    case Revoke(_, q) => RevokeActor(s, w, q);
    case Poll(_, q) => PollActor(s, w, q);
    case Check(_) => AdvanceActor(s, w, if JobAt(s, w).key in s.rows then Recorded else Missing, s.rows);
    case Evaluate(_, result) => AdvanceActor(s, w, Evaluated(Row(JobAt(s, w).version, result)), s.rows);
    case Insert(_) => AdvanceActor(s, w, Inserted(s.workers[w].stage.progress.row), s.rows);
    case Store(_) => AdvanceActor(s, w, Recorded, InsertIfAbsent(s.rows, JobAt(s, w).key, s.workers[w].stage.progress.row));
    case Commit(_) => CommitActor(s, w);
    case Crash(_) =>
  }

  lemma CommittedKept(s: State, e: Event)
    requires Inv(s) && Enabled(s, e)
    ensures forall p: nat, o: nat :: p < |Next(s, e).log| && o < Next(s, e).committed[p] ==> HasRow(Next(s, e), p, o)
  {
    StepGrows(s, e);
    var t := Next(s, e);
    if e.Commit? { CommitActor(s, e.w); }
    forall p: nat, o: nat | p < |t.log| && o < t.committed[p] ensures HasRow(t, p, o) {
      if !(e.Commit? && p in s.workers[e.w].owned) {
        assert HasRow(s, p, o);
        RowKept(s, t, p, o);
      }
    }
  }

  /** A partition has at most one owner. */
  ghost predicate OwnersApart(s: State)
  {
    forall v: nat, w: nat, p {:trigger p in s.workers[v].owned, p in s.workers[w].owned} ::
      v < |s.workers| && w < |s.workers| && p in s.workers[v].owned && p in s.workers[w].owned ==> v == w
  }

  lemma OwnersKept(s: State, e: Event)
    requires Inv(s) && Enabled(s, e)
    ensures OwnersApart(Next(s, e))
  {
    var t := Next(s, e);
    forall v: nat, w: nat, p | v < |t.workers| && w < |t.workers| && p in t.workers[v].owned && p in t.workers[w].owned ensures v == w {
      if e.Assign? && p == e.q {
        assert p !in s.workers[v].owned || v == e.w;
        assert p !in s.workers[w].owned || w == e.w;
      } else {
        assert p in s.workers[v].owned && p in s.workers[w].owned;
      }
    }
  }

  lemma EnqueuedKept(s: State, t: State, k: Key, version: string)
    requires Grows(s, t) && Enqueued(s.log, k, version)
    ensures Enqueued(t.log, k, version)
  {
    var p: nat, o: nat :| p < |s.log| && o < |s.log[p]| && s.log[p][o].key == k && s.log[p][o].version == version;
    assert t.log[p][o] == t.log[p][..|s.log[p]|][o];
  }

  lemma RowsFromJobs(s: State, e: Event, k: Key)
    requires Inv(s) && Enabled(s, e) && k in Next(s, e).rows
    ensures Enqueued(Next(s, e).log, k, Next(s, e).rows[k].version)
  {
    StepGrows(s, e);
    var t := Next(s, e);
    if k in s.rows {
      var _ := t.rows[k];
      EnqueuedKept(s, t, k, s.rows[k].version);
    } else {
      assert WorkerOk(s, e.w);
      assert t.log[s.workers[e.w].stage.p][s.workers[e.w].stage.o] == JobAt(s, e.w);
    }
  }

  /** Owning a partition while another worker commits moves nothing under the owner's feet. */
  lemma BystanderCommitted(s: State, e: Event, w: nat)
    requires Inv(s) && Enabled(s, e) && w < |s.workers| && Actor(e) != w
    ensures forall p {:trigger Next(s, e).committed[p]} :: 0 <= p < |s.committed| && p in s.workers[w].owned ==> Next(s, e).committed[p] == s.committed[p]
  {
    if e.Commit? {
      forall p | 0 <= p < |s.committed| && p in s.workers[w].owned ensures Next(s, e).committed[p] == s.committed[p] {
        assert p !in s.workers[e.w].owned;
      }
    }
  }

  /** Every step, by anybody, in any order, keeps the invariant. */
  lemma StepKeeps(s: State, e: Event)
    requires Inv(s) && Enabled(s, e)
    ensures Inv(Next(s, e)) && Grows(s, Next(s, e))
  {
    var t := Next(s, e);
    StepGrows(s, e);
    CommittedKept(s, e);
    OwnersKept(s, e);
    forall w: nat | w < |t.workers| ensures WorkerOk(t, w) {
      assert WorkerOk(s, w);
      if Actor(e) == w {
        ActorKept(s, e, w);
      } else {
        BystanderCommitted(s, e, w);
        WorkerKept(s, t, w);
      }
    }
    forall k | k in t.rows ensures Enqueued(t.log, k, t.rows[k].version) {
      RowsFromJobs(s, e, k);
    }
  }

  // ---------------------------------------------------------------- whole runs

  /** In every run nothing on the log or in the table is ever lost or changed. */
  lemma {:induction false} RunKeeps(s: State, es: seq<Event>)
    requires Inv(s) && Possible(s, es)
    ensures Inv(Run(s, es)) && Grows(s, Run(s, es))
    decreases |es|
  {
    if es == [] {
      forall p | 0 <= p < |s.log| ensures s.log[p][..|s.log[p]|] == s.log[p] {}
    } else {
      var u := Next(s, es[0]);
      StepKeeps(s, es[0]);
      RunKeeps(u, es[1..]);
      GrowsTrans(s, u, Run(u, es[1..]));
    }
  }

  lemma GrowsTrans(s: State, u: State, t: State)
    requires Grows(s, u) && Grows(u, t)
    ensures Grows(s, t)
  {
    forall p | 0 <= p < |s.log| ensures |s.log[p]| <= |t.log[p]| && t.log[p][..|s.log[p]|] == s.log[p] {
      assert t.log[p][..|u.log[p]|] == u.log[p] && u.log[p][..|s.log[p]|] == s.log[p];
      assert t.log[p][..|s.log[p]|] == t.log[p][..|u.log[p]|][..|s.log[p]|];
    }
    forall k | k in s.rows ensures k in t.rows && t.rows[k] == s.rows[k] {
      assert k in u.rows;
    }
  }

  lemma StartOk(partitions: nat, workers: nat)
    ensures Inv(Start(partitions, workers))
  {
  }

  /** Some message on the log asks for this key. */
  ghost predicate AskedFor(log: seq<seq<Job>>, k: Key)
  {
    exists p: nat, o: nat {:trigger log[p][o]} :: p < |log| && o < |log[p]| && log[p][o].key == k
  }

  ghost predicate AllCommitted(s: State)
  {
    |s.committed| == |s.log| && forall p :: 0 <= p < |s.log| ==> s.committed[p] == |s.log[p]|
  }

  lemma AllRecorded(s: State)
    requires Inv(s) && AllCommitted(s)
    ensures forall k :: k in s.rows <==> AskedFor(s.log, k)
  {
    forall k ensures k in s.rows <==> AskedFor(s.log, k) {
      if AskedFor(s.log, k) {
        var p: nat, o: nat :| p < |s.log| && o < |s.log[p]| && s.log[p][o].key == k;
        assert HasRow(s, p, o);
      }
      if k in s.rows {
        var p: nat, o: nat :| p < |s.log| && o < |s.log[p]| && s.log[p][o].key == k && s.log[p][o].version == s.rows[k].version;
      }
    }
  }

  /** Exactly once. Whatever the interleaving, the crashes and the rebalances: below every committed offset
      each message has its row; a row once written keeps its value for ever after and belongs to a job that
      was put on the log; and when all offsets are committed the table's keys are exactly the keys asked
      for. */
  lemma ExactlyOnce(partitions: nat, workers: nat, es: seq<Event>, more: seq<Event>)
    requires Possible(Start(partitions, workers), es) && Possible(Run(Start(partitions, workers), es), more)
    ensures var s := Run(Start(partitions, workers), es); var t := Run(s, more);
            && |s.committed| == |s.log|
            && (forall p: nat, o: nat :: p < |s.log| && o < s.committed[p] ==> HasRow(s, p, o))
            && (forall k :: k in s.rows ==> k in t.rows && t.rows[k] == s.rows[k] && Enqueued(s.log, k, s.rows[k].version))
            && (AllCommitted(s) ==> forall k :: k in s.rows <==> AskedFor(s.log, k))
  {
    StartOk(partitions, workers);
    var s := Run(Start(partitions, workers), es);
    RunKeeps(Start(partitions, workers), es);
    RunKeeps(s, more);
    var t := Run(s, more);
    if AllCommitted(s) { AllRecorded(s); }
    forall k | k in s.rows ensures k in t.rows && t.rows[k] == s.rows[k] {
      assert Grows(s, t);
    }
  }

  // ---------------------------------------------------------------- a stale answer is still right

  /** What `already_done` tells a worker stays true: once it has seen the row of the message in its hands,
      that row is there with the same value in every later state, so skipping the job and committing the
      offset loses nothing whatever others do meanwhile. */
  lemma SkipIsSafe(s: State, w: nat, es: seq<Event>)
    requires Inv(s) && Enabled(s, Check(w)) && JobAt(s, w).key in s.rows && Possible(Next(s, Check(w)), es)
    ensures var k := JobAt(s, w).key; var t := Next(s, Check(w));
            t.workers[w].stage.progress == Recorded && k in Run(t, es).rows && Run(t, es).rows[k] == s.rows[k]
  {
    var t := Next(s, Check(w));
    StepKeeps(s, Check(w));
    RunKeeps(t, es);
    assert JobAt(s, w).key in Run(t, es).rows;
  }

  // ---------------------------------------------------------------- one worker alone is one of the runs

  lemma {:induction false} RunSplit(s: State, xs: seq<Event>, ys: seq<Event>)
    requires Possible(s, xs) && Possible(Run(s, xs), ys)
    ensures Possible(s, xs + ys) && Run(s, xs + ys) == Run(Run(s, xs), ys)
    decreases |xs|
  {
    if xs == [] {
      assert xs + ys == ys;
    } else {
      assert (xs + ys)[1..] == xs[1..] + ys;
      RunSplit(Next(s, xs[0]), xs[1..], ys);
    }
  }

  /** Worker `w` is between messages and owns partition `q` and no other; `o` is what it reads next. */
  ghost predicate Between(s: State, w: nat, q: nat, o: nat)
  {
    && |s.committed| == |s.log| && w < |s.workers| && q < |s.log| && o <= |s.log[q]|
    && s.workers[w] == Worker(map[q := o], Idle)
  }

  /** The state after the worker is done with one message. */
  function Handled(s: State, w: nat, q: nat, o: nat, result: string): State
    requires w < |s.workers| && q < |s.log| && q < |s.committed| && o < |s.log[q]|
  {
    var job := s.log[q][o];
    s.(rows := InsertIfAbsent(s.rows, job.key, Row(job.version, result)), committed := s.committed[q := o + 1],
       workers := s.workers[w := Worker(map[q := o + 1], Idle)])
  }

  /** The same state with the worker this far into message `o` of partition `q`. */
  function At(s: State, w: nat, q: nat, o: nat, progress: Progress): State
    requires w < |s.workers|
  {
    With(s, w, Worker(map[q := o + 1], Busy(q, o, progress)))
  }

  lemma PollStep(s: State, w: nat, q: nat, o: nat)
    requires Between(s, w, q, o) && o < |s.log[q]|
    ensures Enabled(s, Poll(w, q)) && Next(s, Poll(w, q)) == At(s, w, q, o, Fetched)
  {
    assert map[q := o][q := o + 1] == map[q := o + 1];
  }

  lemma MoveStep(s: State, w: nat, q: nat, o: nat, e: Event, before: Progress, after: Progress)
    requires Between(s, w, q, o) && o < |s.log[q]|
    requires var job := s.log[q][o];
             || (e == Check(w) && before == Fetched && after == if job.key in s.rows then Recorded else Missing)
             || (e.Evaluate? && e.w == w && before == Missing && after == Evaluated(Row(job.version, e.result)))
             || (e == Insert(w) && before.Evaluated? && after == Inserted(before.row))
    ensures Enabled(At(s, w, q, o, before), e) && Next(At(s, w, q, o, before), e) == At(s, w, q, o, after)
  {
    assert At(s, w, q, o, before).workers[w].stage == Busy(q, o, before);
  }

  lemma StoreStep(s: State, w: nat, q: nat, o: nat, row: Row)
    requires Between(s, w, q, o) && o < |s.log[q]|
    ensures var t := At(s, w, q, o, Inserted(row));
            Enabled(t, Store(w)) && Next(t, Store(w)) == At(s.(rows := InsertIfAbsent(s.rows, s.log[q][o].key, row)), w, q, o, Recorded)
  {
    assert At(s, w, q, o, Inserted(row)).workers[w].stage == Busy(q, o, Inserted(row));
  }

  /** The loop body: poll and check; if the row is there, commit; otherwise run, insert, store and commit. */
  lemma LoopBody(s: State, w: nat, q: nat, o: nat, result: string) returns (es: seq<Event>)
    requires Between(s, w, q, o) && o < |s.log[q]|
    ensures es == if s.log[q][o].key in s.rows then [Poll(w, q)] + [Check(w)] + [Commit(w)]
                  else [Poll(w, q)] + [Check(w)] + ([Evaluate(w, result)] + ([Insert(w)] + ([Store(w)] + [Commit(w)])))
    ensures Possible(s, es) && Run(s, es) == Handled(s, w, q, o, result)
  {
    var job := s.log[q][o];
    PollStep(s, w, q, o);
    if job.key in s.rows {
      MoveStep(s, w, q, o, Check(w), Fetched, Recorded);
      CommitEnds(s, w, q, o);
      hide Next, Enabled, At, Run, Possible;
      Chain(At(s, w, q, o, Fetched), Check(w), [Commit(w)]);
      Chain(s, Poll(w, q), [Check(w)] + [Commit(w)]);
      es := [Poll(w, q)] + ([Check(w)] + [Commit(w)]);
    } else {
      var row := Row(job.version, result);
      MoveStep(s, w, q, o, Check(w), Fetched, Missing);
      MoveStep(s, w, q, o, Evaluate(w, result), Missing, Evaluated(row));
      MoveStep(s, w, q, o, Insert(w), Evaluated(row), Inserted(row));
      StoreStep(s, w, q, o, row);
      CommitEnds(s.(rows := InsertIfAbsent(s.rows, job.key, row)), w, q, o);
      hide Next, Enabled, At, Run, Possible;
      var e4 := [Store(w)] + [Commit(w)];
      var e3 := [Insert(w)] + e4;
      var e2 := [Evaluate(w, result)] + e3;
      Chain(At(s, w, q, o, Inserted(row)), Store(w), [Commit(w)]);
      Chain(At(s, w, q, o, Evaluated(row)), Insert(w), e4);
      Chain(At(s, w, q, o, Missing), Evaluate(w, result), e3);
      Chain(At(s, w, q, o, Fetched), Check(w), e2);
      Chain(s, Poll(w, q), [Check(w)] + e2);
      es := [Poll(w, q)] + ([Check(w)] + e2);
    }
  }

  lemma Chain(s: State, e: Event, rest: seq<Event>)
    requires Enabled(s, e)
    ensures Possible(Next(s, e), rest) ==> Possible(s, [e] + rest) && Run(s, [e] + rest) == Run(Next(s, e), rest)
  {
    assert ([e] + rest)[1..] == rest;
  }

  lemma CommitEnds(s: State, w: nat, q: nat, o: nat)
    requires Between(s, w, q, o) && o < |s.log[q]|
    ensures var t := At(s, w, q, o, Recorded);
            && Possible(t, [Commit(w)])
            && Run(t, [Commit(w)]) == s.(committed := s.committed[q := o + 1], workers := s.workers[w := Worker(map[q := o + 1], Idle)])
  {
    var t := At(s, w, q, o, Recorded);
    assert t.workers[w].stage == Busy(q, o, Recorded);
    var u := Next(t, Commit(w));
    assert u.committed == s.committed[q := o + 1];
    assert [Commit(w)][1..] == [];
    assert Possible(u, []) && Run(u, []) == u;
  }

  lemma {:induction false} RecordFirst(rows: map<Key, Row>, job: Job, rest: seq<Job>, run: Job -> string)
    ensures RecordAll(rows, [job] + rest, run) == RecordAll(InsertIfAbsent(rows, job.key, Row(job.version, run(job))), rest, run)
  {
    if rest == [] {
      RecordOneMore(rows, [], job, run);
      assert [job] + rest == [] + [job];
    } else {
      var n := |rest| - 1;
      RecordFirst(rows, job, rest[..n], run);
      RecordOneMore(rows, [job] + rest[..n], rest[n], run);
      assert [job] + rest == [job] + rest[..n] + [rest[n]];
    }
  }

  /** What `Consumer.Consume` does to rows, position and commit is what the events of one undisturbed worker
      do: the sequential loop is one of the interleavings. */
  lemma {:induction false} ConsumeIsARun(s: State, w: nat, q: nat, o: nat, run: Job -> string) returns (es: seq<Event>)
    requires Between(s, w, q, o)
    ensures Possible(s, es) && Between(Run(s, es), w, q, |s.log[q]|) && Run(s, es).log == s.log
    ensures Run(s, es).rows == RecordAll(s.rows, s.log[q][o..], run)
    ensures Run(s, es).committed[q] == if o < |s.log[q]| then |s.log[q]| else s.committed[q]
    decreases |s.log[q]| - o
  {
    hide Next, Enabled;
    if o == |s.log[q]| {
      es := [];
    } else {
      var job := s.log[q][o];
      var body := LoopBody(s, w, q, o, run(job));
      var t := Handled(s, w, q, o, run(job));
      var rest := ConsumeIsARun(t, w, q, o + 1, run);
      RunSplit(s, body, rest);
      assert s.log[q][o..] == [job] + s.log[q][o + 1..];
      RecordFirst(s.rows, job, s.log[q][o + 1..], run);
      es := body + rest;
    }
  }
}
