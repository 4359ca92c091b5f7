/**
 * The operations the probe adapters of neubot_cdn_test/__main__.py put on the
 * task runner's queue, which operations a successful completion enqueues next,
 * and the operations `main` seeds the queue with.
 */
module Operations {

  /** The server argument `main` gives the connectivity probe, and its host name. */
  const DEFAULT_SERVER: string := "<default>"
  const WHOAMI: string := "whoami.akamai.net"

  /** An adapter together with its argument tuple (the runner argument left implicit). */
  datatype Op =
    | Resolve4(server: string, name: string)
    | Resolve6(server: string, name: string)
    | Reverse4(server: string, address: string)
    | Reverse6(server: string, address: string)
    | Traceroute(address: string)
    | Whois(address: string)

  /** How many stages can still follow an operation: resolve, reverse, traceroute, whois. */
  function Depth(op: Op): nat {
    match op
    case Resolve4(_, _) => 3
    case Resolve6(_, _) => 3
    case Reverse4(_, _) => 2
    case Reverse6(_, _) => 2
    case Traceroute(_) => 1
    case Whois(_) => 0
  }

  /** The name or address an operation is about. */
  function Subject(op: Op): string {
    if op.Resolve4? || op.Resolve6? then op.name else op.address
  }

  /** `child` is of the kind a completion of `parent` may enqueue. */
  predicate MayFollow(parent: Op, child: Op) {
    match parent
    case Resolve4(s, _) => child.Reverse4? && child.server == s
    case Resolve6(s, _) => child.Reverse6? && child.server == s
    case Reverse4(_, a) => child == Traceroute(a)
    case Reverse6(_, a) => child == Traceroute(a)
    case Traceroute(a) => child == Whois(a)
    case Whois(_) => false
  }

  /**
   * The operations a successful completion of `op` enqueues, in order;
   * `addresses` is the address list of a resolve answer and unused otherwise.
   * A failed completion enqueues nothing.
   */
  function FollowOns(op: Op, addresses: seq<string>): (r: seq<Op>)
    ensures forall k :: 0 <= k < |r| ==> MayFollow(op, r[k])
    ensures |r| == if (op.Resolve4? && op.name == WHOAMI) || op.Whois? then 0
                   else if op.Resolve4? || op.Resolve6? then |addresses|
                   else 1
    ensures op.Resolve4? || op.Resolve6? ==> forall k :: 0 <= k < |r| ==> Subject(r[k]) == addresses[k]
  {
    match op
    case Resolve4(s, n) =>
      if n == WHOAMI then [] else seq(|addresses|, k requires 0 <= k < |addresses| => Reverse4(s, addresses[k]))
    case Resolve6(s, _) => seq(|addresses|, k requires 0 <= k < |addresses| => Reverse6(s, addresses[k]))
    case Reverse4(_, a) => [Traceroute(a)]
    case Reverse6(_, a) => [Traceroute(a)]
    case Traceroute(a) => [Whois(a)]
    case Whois(_) => []
  }

  ghost predicate IsChain(ch: seq<Op>) {
    forall k :: 0 <= k < |ch| - 1 ==> MayFollow(ch[k], ch[k + 1])
  }

  /** Every chain of follow-on operations has at most four members. */
  lemma {:induction false} ChainBound(ch: seq<Op>)
    requires |ch| > 0 && IsChain(ch)
    ensures |ch| <= Depth(ch[0]) + 1 <= 4
  {
    if |ch| > 1 {
      assert MayFollow(ch[0], ch[1]);
      var tail := ch[1..];
      assert IsChain(tail) by {
        forall k | 0 <= k < |tail| - 1 ensures MayFollow(tail[k], tail[k + 1]) {
          assert MayFollow(ch[k + 1], ch[k + 2]);
        }
      }
      ChainBound(tail);
    }
  }

  /** The number of operations in `s` whose depth is `d`. */
  function Count(s: seq<Op>, d: nat): nat {
    if s == [] then 0 else (if Depth(s[0]) == d then 1 else 0) + Count(s[1..], d)
  }

  lemma {:induction false} CountAppend(a: seq<Op>, b: seq<Op>, d: nat)
    ensures Count(a + b, d) == Count(a, d) + Count(b, d)
  {
    if a == [] {
      assert a + b == b;
    } else {
      assert (a + b)[1..] == a[1..] + b;
      CountAppend(a[1..], b, d);
    }
  }

  lemma {:induction false} CountAbsent(s: seq<Op>, d: nat)
    requires forall k :: 0 <= k < |s| ==> Depth(s[k]) != d
    ensures Count(s, d) == 0
  {
    if s != [] {
      CountAbsent(s[1..], d);
    }
  }

  /**
   * Completing `parent` and enqueueing its follow-ons removes one operation of
   * the parent's depth and adds none of that depth or above.
   */
  lemma FollowOnsCount(parent: Op, children: seq<Op>, d: nat)
    requires forall k :: 0 <= k < |children| ==> MayFollow(parent, children[k])
    requires d >= Depth(parent)
    ensures Count(children, d) == 0
  {
    CountAbsent(children, d);
  }

  /**
   * The termination order of a run: the numbers of pending operations of
   * depth 3, 2, 1 and 0, compared lexicographically.
   */
  ghost predicate LexBelow(p: seq<Op>, q: seq<Op>) {
    || Count(p, 3) < Count(q, 3)
    || (Count(p, 3) == Count(q, 3) &&
        (|| Count(p, 2) < Count(q, 2)
         || (Count(p, 2) == Count(q, 2) &&
             (|| Count(p, 1) < Count(q, 1)
              || (Count(p, 1) == Count(q, 1) && Count(p, 0) < Count(q, 0))))))
  }

  /**
   * Taking the `i`-th in-flight operation away and queueing operations that
   * may follow it makes the pending operations smaller in the termination
   * order, however many follow-ons there are.
   */
  lemma CompletionLowers(queue: seq<Op>, inFlight: seq<Op>, i: nat, children: seq<Op>)
    requires i < |inFlight|
    requires forall k :: 0 <= k < |children| ==> MayFollow(inFlight[i], children[k])
    ensures LexBelow((queue + children) + (inFlight[..i] + inFlight[i + 1..]), queue + inFlight)
  {
    var op := inFlight[i];
    var d := Depth(op);
    var rest := inFlight[..i] + inFlight[i + 1..];
    assert inFlight == inFlight[..i] + [op] + inFlight[i + 1..];
    forall e: nat | e >= d
      ensures Count((queue + children) + rest, e) + (if e == d then 1 else 0) == Count(queue + inFlight, e)
    {
      FollowOnsCount(op, children, e);
      CountAppend(queue + children, rest, e);
      CountAppend(queue, children, e);
      CountAppend(inFlight[..i], inFlight[i + 1..], e);
      CountAppend(inFlight[..i] + [op], inFlight[i + 1..], e);
      CountAppend(inFlight[..i], [op], e);
      CountAppend(queue, inFlight, e);
    }
    var p := (queue + children) + rest;
    var q := queue + inFlight;
    if d == 3 {
      assert Count(p, 3) < Count(q, 3);
    } else if d == 2 {
      assert Count(p, 3) == Count(q, 3) && Count(p, 2) < Count(q, 2);
    } else if d == 1 {
      assert Count(p, 3) == Count(q, 3) && Count(p, 2) == Count(q, 2) && Count(p, 1) < Count(q, 1);
    } else {
      assert Count(p, 3) == Count(q, 3) && Count(p, 2) == Count(q, 2) && Count(p, 1) == Count(q, 1);
    }
  }

  /** Starting the head of the queue moves it to the in-flight list and changes no count. */
  lemma StartKeepsCounts(queue: seq<Op>, inFlight: seq<Op>, d: nat)
    requires queue != []
    ensures Count(queue[1..] + (inFlight + [queue[0]]), d) == Count(queue + inFlight, d)
  {
    assert queue == [queue[0]] + queue[1..];
    CountAppend(queue[1..], inFlight + [queue[0]], d);
    CountAppend(inFlight, [queue[0]], d);
    CountAppend([queue[0]], queue[1..], d);
    CountAppend(queue, inFlight, d);
  }

  /** `main`'s inner loop for one server: a resolve4 and a resolve6 per name. */
  function NameOps(server: string, names: seq<string>): seq<Op> {
    if names == [] then []
    else NameOps(server, names[..|names| - 1]) + [Resolve4(server, names[|names| - 1]), Resolve6(server, names[|names| - 1])]
  }

  /** `main`'s outer loop over the servers. */
  function PairOps(servers: seq<string>, names: seq<string>): seq<Op> {
    if servers == [] then []
    else PairOps(servers[..|servers| - 1], names) + NameOps(servers[|servers| - 1], names)
  }

  /** Everything `main` enqueues before the executor starts. */
  function SeedOps(servers: seq<string>, names: seq<string>): seq<Op> {
    [Resolve4(DEFAULT_SERVER, WHOAMI)] + PairOps(servers, names)
  }

  lemma {:induction false} NameOpsAt(server: string, names: seq<string>)
    ensures |NameOps(server, names)| == 2 * |names|
    ensures forall j :: 0 <= j < |names| ==>
              NameOps(server, names)[2 * j] == Resolve4(server, names[j]) &&
              NameOps(server, names)[2 * j + 1] == Resolve6(server, names[j])
  {
    if names != [] {
      var init := names[..|names| - 1];
      NameOpsAt(server, init);
    }
  }

  lemma {:induction false} PairOpsLength(servers: seq<string>, names: seq<string>)
    ensures |PairOps(servers, names)| == 2 * (|servers| * |names|)
  {
    if servers != [] {
      var init := servers[..|servers| - 1];
      PairOpsLength(init, names);
      NameOpsAt(servers[|servers| - 1], names);
      assert (|init| + 1) * |names| == |init| * |names| + |names|;
    }
  }

  lemma {:induction false} PairOpsAt(servers: seq<string>, names: seq<string>, i: nat, j: nat)
    requires i < |servers| && j < |names|
    ensures 2 * (i * |names| + j) + 1 < |PairOps(servers, names)|
    ensures PairOps(servers, names)[2 * (i * |names| + j)] == Resolve4(servers[i], names[j])
    ensures PairOps(servers, names)[2 * (i * |names| + j) + 1] == Resolve6(servers[i], names[j])
  {
    var init := servers[..|servers| - 1];
    var last := servers[|servers| - 1];
    var n := |names|;
    var m := |init|;
    PairOpsLength(init, names);
    NameOpsAt(last, names);
    var front := PairOps(init, names);
    var back := NameOps(last, names);
    assert PairOps(servers, names) == front + back;
    if i == m {
      assert 2 * (i * n + j) == |front| + 2 * j;
    } else {
      PairOpsAt(init, names, i, j);
      assert servers[i] == init[i];
    }
  }

  /** Seeding enqueues 1 + 2·|servers|·|names| operations, the connectivity probe first. */
  lemma SeedingCount(servers: seq<string>, names: seq<string>)
    ensures |SeedOps(servers, names)| == 1 + 2 * (|servers| * |names|)
    ensures SeedOps(servers, names)[0] == Resolve4(DEFAULT_SERVER, WHOAMI)
  {
    PairOpsLength(servers, names);
  }

  /**
   * After the connectivity probe come a resolve4 and a resolve6 per
   * (server, name) pair, servers in the outer and names in the inner order.
   */
  lemma SeedingOrder(servers: seq<string>, names: seq<string>, i: nat, j: nat)
    requires i < |servers| && j < |names|
    ensures 2 + 2 * (i * |names| + j) < |SeedOps(servers, names)|
    ensures SeedOps(servers, names)[1 + 2 * (i * |names| + j)] == Resolve4(servers[i], names[j])
    ensures SeedOps(servers, names)[2 + 2 * (i * |names| + j)] == Resolve6(servers[i], names[j])
  {
    var k := 2 * (i * |names| + j);
    PairOpsAt(servers, names, i, j);
    assert SeedOps(servers, names)[1 + k] == PairOps(servers, names)[k];
    assert SeedOps(servers, names)[2 + k] == PairOps(servers, names)[k + 1];
  }

  /** With no servers or no names only the connectivity probe is enqueued. */
  lemma SeedingEmpty(servers: seq<string>, names: seq<string>)
    requires servers == [] || names == []
    ensures SeedOps(servers, names) == [Resolve4(DEFAULT_SERVER, WHOAMI)]
  {
    PairOpsLength(servers, names);
    assert |servers| * |names| == 0;
  }

  /**
   * Two answers through one server that share an address each enqueue a
   * reverse lookup of it, so that address's leaves are written twice.
   */
  lemma SharedAddressTwice(server: string, n1: string, n2: string, address: string)
    requires n1 != WHOAMI && n2 != WHOAMI
    ensures FollowOns(Resolve4(server, n1), [address]) + FollowOns(Resolve4(server, n2), [address])
            == [Reverse4(server, address), Reverse4(server, address)]
  {
  }
}
