/**
 * The task runner the probe adapters of neubot_cdn_test/__main__.py drive,
 * modelled as exactly what they use: the result mapping and the two input
 * lists, `add_operation` (append to the queue and add one to the counter) and
 * `decrease_counter`.  Starting a queued operation and the firing of its
 * Deferred are the two executor steps the adapters' code runs inside.
 */
module TaskRunner {
  import opened Operations
  import opened ResultStore

  /** A call an adapter makes on the runner, with the counter value right after the call. */
  datatype Call = Added(op: Op, counter: int) | Decreased(counter: int)

  /** The calls a loop of `add_operation` over `ops` makes when the counter starts at `base`. */
  function AddCalls(ops: seq<Op>, base: int): (r: seq<Call>)
    ensures |r| == |ops|
    ensures forall k :: 0 <= k < |r| ==> r[k] == Added(ops[k], base + k + 1)
  {
    seq(|ops|, k requires 0 <= k < |ops| => Added(ops[k], base + k + 1))
  }

  lemma AddCallsSnoc(ops: seq<Op>, op: Op, base: int)
    ensures AddCalls(ops + [op], base) == AddCalls(ops, base) + [Added(op, base + |ops| + 1)]
  {
  }

  lemma AddCallsAppend(ops: seq<Op>, more: seq<Op>, base: int)
    ensures AddCalls(ops + more, base) == AddCalls(ops, base) + AddCalls(more, base + |ops|)
  {
  }

  class Runner {
    /** Operations added and not yet started. */
    var queue: seq<Op>
    /** Operations started whose Deferred has not fired yet. */
    var inFlight: seq<Op>
    var counter: int
    var results: Store
    var dnsServers: seq<string>
    var names: seq<string>

    /** Calls of `add_operation` and of `decrease_counter` so far. */
    ghost var created: nat
    ghost var finished: nat
    /** Fired operations whose callback stopped (or never ran) before `decrease_counter`. */
    ghost var lost: nat
    /** Every call the adapters made on the runner, in order. */
    ghost var calls: seq<Call>

    /**
     * The counter is the number of operations added minus the number of
     * `decrease_counter` calls, which is the number queued, in flight or lost.
     */
    ghost predicate Valid()
      reads this
    {
      counter == created - finished && counter == |queue| + |inFlight| + lost
    }

    constructor ()
      ensures Valid()
      ensures queue == [] && inFlight == [] && counter == 0 && results == EMPTY
      ensures dnsServers == [] && names == []
      ensures created == 0 && finished == 0 && lost == 0 && calls == []
    {
      queue, inFlight, counter, results := [], [], 0, EMPTY;
      dnsServers, names := [], [];
      created, finished, lost, calls := 0, 0, 0, [];
    }

    method AddOperation(op: Op)
      modifies this
      ensures queue == old(queue) + [op] && counter == old(counter) + 1
      ensures created == old(created) + 1 && calls == old(calls) + [Added(op, counter)]
      ensures inFlight == old(inFlight) && results == old(results)
      ensures dnsServers == old(dnsServers) && names == old(names)
      ensures finished == old(finished) && lost == old(lost)
    {
      queue := queue + [op];
      counter := counter + 1;
      created := created + 1;
      calls := calls + [Added(op, counter)];
    }

    method DecreaseCounter()
      modifies this
      ensures counter == old(counter) - 1
      ensures finished == old(finished) + 1 && calls == old(calls) + [Decreased(counter)]
      ensures queue == old(queue) && inFlight == old(inFlight) && results == old(results)
      ensures dnsServers == old(dnsServers) && names == old(names)
      ensures created == old(created) && lost == old(lost)
    {
      counter := counter - 1;
      finished := finished + 1;
      calls := calls + [Decreased(counter)];
    }

    /** The executor takes the next queued operation and invokes its adapter. */
    method Start() returns (op: Op)
      requires Valid() && queue != []
      modifies this
      ensures Valid()
      ensures op == old(queue[0]) && queue == old(queue[1..]) && inFlight == old(inFlight) + [op]
      ensures counter == old(counter) && results == old(results)
      ensures dnsServers == old(dnsServers) && names == old(names)
      ensures created == old(created) && finished == old(finished) && lost == old(lost) && calls == old(calls)
    {
      op := queue[0];
      queue := queue[1..];
      inFlight := inFlight + [op];
    }

    /** The Deferred of the `i`-th started operation fires; its callback is about to run. */
    method Fire(i: nat) returns (op: Op)
      requires i < |inFlight|
      modifies this
      ensures op == old(inFlight[i]) && inFlight == old(inFlight[..i] + inFlight[i + 1..])
      ensures queue == old(queue) && counter == old(counter) && results == old(results)
      ensures dnsServers == old(dnsServers) && names == old(names)
      ensures created == old(created) && finished == old(finished) && lost == old(lost) && calls == old(calls)
    {
      op := inFlight[i];
      inFlight := inFlight[..i] + inFlight[i + 1..];
    }
  }
}
