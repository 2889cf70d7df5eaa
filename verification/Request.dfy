/** A generation request: the mutable record the scheduler and allocators update in place, and its
    value at one moment. Wall-clock fields are left out; `stream` is the log of calls made to the
    request's sink. */
module Requests {
  import opened Seqs
  import opened Transformer

  /** Where a submitted request is. The engine's own three states are WAITING, RUNNING and FINISHED;
      here WAITING is split into waiting in the queue, `Admitted` (memory allocated, prefill still to
      come) and `Dropped` (cancelled while in the queue). */
  datatype Phase = Waiting | Admitted | Running | Finished | Dropped

  datatype Reason = Length | Stop | Cancelled

  datatype Req = Req(
    id: string, prompt: seq<Token>, maxNew: int, ignoreEos: bool, arrival: int,
    out: seq<Token>, stream: seq<(Token, bool)>, state: Phase, reason: Option<Reason>,
    table: seq<nat>, admitSeq: int, preempts: nat, cancelled: bool, sampler: Option<Sampler>)
  {
    function SeqLen(): nat { |prompt| + |out| }

    predicate Done() { reason.Some? }

    /** Somewhere the scheduler still looks at. */
    predicate Live() { state == Waiting || state == Admitted || state == Running }

    /** Owns KV memory. */
    predicate Holds() { state == Admitted || state == Running }
  }

  class Request {
    const id: string
    const prompt: seq<Token>
    var maxNew: int
    const ignoreEos: bool
    const arrival: int
    var out: seq<Token>
    var stream: seq<(Token, bool)>
    var state: Phase
    var reason: Option<Reason>
    var table: seq<nat>
    var admitSeq: int
    var preempts: nat
    var cancelled: bool
    var sampler: Option<Sampler>

    constructor (id: string, prompt: seq<Token>, maxNew: int, ignoreEos: bool, arrival: int, sampler: Option<Sampler>)
      ensures Snap() == NewReq(id, prompt, maxNew, ignoreEos, arrival, sampler)
    {
      this.id, this.prompt, this.maxNew, this.ignoreEos, this.arrival := id, prompt, maxNew, ignoreEos, arrival;
      out, stream, state, reason, table := [], [], Waiting, None, [];
      admitSeq, preempts, cancelled := -1, 0, false;
      this.sampler := sampler;
    }

    /** The value of the record right now. */
    ghost function Snap(): Req
      reads this
    {
      Req(id, prompt, maxNew, ignoreEos, arrival, out, stream, state, reason, table, admitSeq, preempts, cancelled, sampler)
    }

    function SeqLen(): nat
      reads this
    {
      |prompt| + |out|
    }

    predicate Done()
      reads this
    {
      reason.Some?
    }
  }

  function NewReq(id: string, prompt: seq<Token>, maxNew: int, ignoreEos: bool, arrival: int, sampler: Option<Sampler>): Req
  {
    Req(id, prompt, maxNew, ignoreEos, arrival, [], [], Waiting, None, [], -1, 0, false, sampler)
  }
}
