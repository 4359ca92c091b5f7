# Neubot CDN test: the probe task graph and the DNS answer wrappers

This project models two parts of the Neubot CDN test.

The first part is the probe task graph of `neubot_cdn_test/__main__.py`:

- `op_initialize` builds the skeleton of the nested `results` mapping;
- `main` seeds the task runner;
- the six probe adapters run their completion callbacks.

Each adapter runs in two phases:

- When the executor starts it, a reverse lookup, traceroute or whois puts its placeholder leaf into `results`. A resolve writes nothing at start; its leaves come from `op_initialize`.
- When its Deferred fires, the result callback (or the error callback, where one is registered) does three things:
  1. writes one leaf;
  2. calls `decrease_counter()` once;
  3. adds zero or more follow-on operations with `add_operation`.

The chain of follow-ons is resolve4/resolve6 → reverse4/reverse6 → traceroute → whois. The model then drives the runner through every possible interleaving of start and completion events.

The second part is `LookupAnswer` and `LookupErr` in `neubot_cdn_test/lookup_name.py`:

- address extraction per record type;
- the A/AAAA record selection that `__str__` renders;
- the A/AAAA dispatch of `_address_to_string`;
- the two `join_ipv4_ipv6` methods.

Modules, one file each:

- `Wrappers` (`wrappers.dfy`): `Option` and `Result`.
- `LookupName` (`lookup_name.dfy`): DNS records, `LookupAnswer` and `LookupErr` as classes, and the specification functions `Addresses` and `Selected`.
- `ResultStore` (`result_store.dfy`): the `results` mapping as a value, with these parts:
  - the three flat keys `default_nameserver`, `traceroute` and `whois`;
  - per server, the four tables `A`, `AAAA`, `ReverseA` and `ReverseAAAA`.

  The module also holds the `setdefault` skeleton of `op_initialize` as functions, with its lemmas.
- `Operations` (`operations.dfy`): the six kinds of operation, which follow-ons each may enqueue, the depth of the chain, the termination order, and the seeding order of `main`.
- `TaskRunner` (`task_runner.dfy`): the runner object as a class. Its fields are `queue`, `inFlight`, `counter`, `results`, `dnsServers` and `names`. Its ghost fields count the additions, the decrements and the callbacks that stopped before decrementing, and keep a log of the calls in order.
- `CdnTest` (`cdn_test.dfy`): the adapters' start phase (`Issue`), the ten callbacks and the two failures with no errback, `Initialize`, `Seed`, one completion event (`Complete`, dispatching to one `Complete…` method per kind), the executor loop (`Run`), and `main` without its I/O (`Probe`).

Main results:

- An invariant connects the counter to the work that is still outstanding:
  - counter = operations queued + operations in flight + callbacks that stopped before decrementing;
  - the tables that a started reverse lookup, traceroute or whois writes exist.
- Every callback keeps this invariant.
- Every interleaving terminates. The measure has five parts, compared lexicographically: the numbers of pending operations at depth 3, 2, 1 and 0, then the length of the queue. The last part is what makes a start step (`Issue`) decrease.
- A run ends with nothing pending, and the counter equals the number of lost callbacks.
- The skeleton gives every server its tables once there is at least one name. It never overwrites a leaf, and building it twice changes nothing.
- Seeding puts the whoami probe first, then a resolve4 and a resolve6 for each (server, name) pair, in nested-loop order.
- Address extraction distributes over concatenation. Membership in the extracted list means there is a record of that type with that address. The number of selected records is the number of A addresses plus the number of AAAA addresses.

Choices where the code has a surprising edge. The model follows the code:

- **Callback order.** The code decrements the counter before it enqueues the children (`__main__.py:30-33`, `:81-85`, `:129-131`), and the model keeps that order. The safe order would enqueue the children first. `CdnTest.DecrementFirstReadsZero` states the consequence for a callback that completes the last outstanding operation: its log records the counter at 0 first, and only then the additions of its follow-ons.
- **Resolve6 errors go to the `A` table.** The resolve6 error callback writes its failure into the `A` table, not `AAAA` (`__main__.py:114`). `Resolve6Error` does the same.
- **One leaf, several writers.** A leaf can be written by more than one completion, and whichever completes last wins. The resolve6 errback overwrites `A[name]`, the leaf the resolve4 of that name writes (`__main__.py:81`, `:114`), so a resolve6 failure can erase a good resolve4 answer. An address shared by several answers through one server is reverse-looked-up, tracerouted and whoised once per answer, so `ReverseA[address]`, `traceroute[address]` and `whois[address]` are written once per answer. `CdnTest.Resolve6ErrorOverwritesA` and `Operations.SharedAddressTwice` state these facts.
- **KeyError and failures without an errback are "lost" callbacks.** A lost callback is one that never reaches `decrease_counter`. These cases count as lost:
  - a resolve result or error routed to `results[server]` when `server` has no skeleton entry. This is the case for a failed whoami probe under `"<default>"`, unless `<default>` is itself a listed server and there is a name: it raises KeyError before the decrement.
  - a failed traceroute or whois: only a result callback is registered, so nothing runs.

  The ghost field `lost` counts these. The counter then never returns to zero.
- **Whoami.** The whoami check compares only the name. A resolve4 of `whoami.akamai.net` through any server writes `default_nameserver` and enqueues nothing.

## Model

| member | source | states |
|---|---|---|
| LookupName.AddressToString | neubot_cdn_test/lookup_name.py:27-35 | Renders exactly the A and AAAA records, A with `AF_INET` and AAAA with `AF_INET6`; every other record type is a RuntimeError. |
| LookupName.Selected | neubot_cdn_test/lookup_name.py:37-53 | Every entry that `__str__` renders comes from an A or AAAA record. |
| LookupName.SelectedAppend | neubot_cdn_test/lookup_name.py:37-53 | The selection of a concatenated answer list is the concatenation of the selections. |
| LookupName.SelectedLength | neubot_cdn_test/lookup_name.py:37-53 | The number of rendered entries equals the number of IPv4 plus the number of IPv6 addresses that the getters return. |
| LookupName.SelectedAddresses | neubot_cdn_test/lookup_name.py:37-53 | The addresses in the rendered entries of type t are exactly what `_get_ipvx_addresses(t)` returns, in order. |
| LookupName.AddressesAppend | neubot_cdn_test/lookup_name.py:61-67 | Extraction over a concatenated answer list is the concatenation of the extractions. A joined answer therefore yields the first answer's addresses, then the second's. |
| LookupName.AddressesMember | neubot_cdn_test/lookup_name.py:61-67 | A string is extracted if and only if some record of the expected type renders to it. |
| LookupName.LookupAnswer.constructor | neubot_cdn_test/lookup_name.py:21-24 | The three parts of the result tuple become `ans`, `auth` and `additional`. |
| LookupName.LookupAnswer.StrContent | neubot_cdn_test/lookup_name.py:37-53 | The loop builds the selection of A/AAAA records, in answer order. |
| LookupName.LookupAnswer.JoinIPv4IPv6 | neubot_cdn_test/lookup_name.py:55-59 | Appends the other answer's records to `ans` in place, leaves `auth` and `additional` alone, and returns itself. |
| LookupName.LookupAnswer.GetIPvXAddresses | neubot_cdn_test/lookup_name.py:61-67 | For A or AAAA, returns the addresses of the records of that type, in order. For another type, raises RuntimeError exactly when some record has that type (an empty list otherwise). |
| LookupName.LookupAnswer.GetIPv4Addresses | neubot_cdn_test/lookup_name.py:69-71 | The addresses of the A records, in order. |
| LookupName.LookupAnswer.GetIPv6Addresses | neubot_cdn_test/lookup_name.py:73-75 | The addresses of the AAAA records, in order. |
| LookupName.LookupErr.constructor | neubot_cdn_test/lookup_name.py:79-81 | Keeps the failure's message; `message_add` starts empty. |
| LookupName.LookupErr.Content | neubot_cdn_test/lookup_name.py:83-112 | One entry (the message) when `message_add` is empty; two entries (message, then `message_add`) otherwise. |
| LookupName.LookupErr.JoinIPv4IPv6 | neubot_cdn_test/lookup_name.py:114-117 | Sets `message_add` to the other error's message, leaves `message` unchanged, and returns itself. |
| ResultStore.Put | neubot_cdn_test/__main__.py:81 | Assigning `results[server][T][key]` changes that one table at that one key. Every other table, the flat keys and the set of servers stay unchanged. |
| ResultStore.NamesSkeletonShape | neubot_cdn_test/__main__.py:170-177 | After the name loop for one server, that server has an `A` and an `AAAA` leaf for every name. No existing leaf changes. Only the server is added as a key. |
| ResultStore.ServersSkeletonShape | neubot_cdn_test/__main__.py:169-177 | After the nested loops, every (server, name) pair has its `A` and `AAAA` leaves. No existing leaf changes. |
| ResultStore.SkeletonShape | neubot_cdn_test/__main__.py:166-177 | The skeleton holds the three flat keys and every pair's leaves, and keeps every earlier leaf. The servers gained are exactly the listed servers when there is a name, and none otherwise. |
| ResultStore.NamesSkeletonFixes | neubot_cdn_test/__main__.py:170-177 | When the leaves are already there, the name loop changes nothing: `setdefault` never overwrites. |
| ResultStore.ServersSkeletonFixes | neubot_cdn_test/__main__.py:169-177 | When every pair's leaves are already there, the nested loops change nothing. |
| ResultStore.SkeletonIdempotent | neubot_cdn_test/__main__.py:166-177 | Building the skeleton twice gives the same mapping as building it once. |
| ResultStore.SkeletonWithoutPairs | neubot_cdn_test/__main__.py:169-177 | With no server or no name, only the three flat keys are set. |
| ResultStore.SkeletonOfNothing | neubot_cdn_test/__main__.py:166-168 | From an empty mapping, the flat keys start as an empty string and two empty dictionaries, for any inputs. With no server or no name, these three keys are all there is. |
| Operations.FollowOns | neubot_cdn_test/__main__.py:84-85 | A successful resolve enqueues one reverse lookup per address, through the same server and in address order (also lines 109-110). A reverse lookup enqueues one traceroute (lines 33, 54). A traceroute enqueues one whois (line 131). A whoami resolve and a whois enqueue nothing. |
| Operations.SharedAddressTwice | neubot_cdn_test/__main__.py:84-85 | Two resolve4 answers through one server that share an address enqueue two identical reverse lookups of it. |
| Operations.ChainBound | neubot_cdn_test/__main__.py:64-149 | Any chain of follow-ons is at most four operations long, and starts no deeper than a resolve. |
| Operations.CompletionLowers | neubot_cdn_test/__main__.py:28-33 | Completing an in-flight operation and enqueuing its follow-ons makes the pending operations smaller in the lexicographic depth order. |
| Operations.NameOpsAt | neubot_cdn_test/__main__.py:200-202 | The inner seeding loop adds `2·|names|` operations: for name j, a resolve4 at 2j and a resolve6 at 2j+1. |
| Operations.PairOpsLength | neubot_cdn_test/__main__.py:199-202 | The nested seeding loops add `2·|servers|·|names|` operations. |
| Operations.PairOpsAt | neubot_cdn_test/__main__.py:199-202 | The resolve4 of (server i, name j) is at 2(i·|names|+j) and its resolve6 right after it. |
| Operations.SeedingCount | neubot_cdn_test/__main__.py:197-202 | Seeding adds `1 + 2·|servers|·|names|` operations, and the whoami probe through `<default>` comes first. |
| Operations.SeedingOrder | neubot_cdn_test/__main__.py:197-202 | After the whoami probe, (server i, name j) has its resolve4 at 1+2(i·|names|+j) and its resolve6 at 2+2(i·|names|+j). |
| Operations.SeedingEmpty | neubot_cdn_test/__main__.py:197-202 | With no server or no name, only the whoami probe is seeded. |
| TaskRunner.Runner.constructor | neubot_cdn_test/__main__.py:193 | A fresh runner: nothing queued or in flight, the counter at zero, and empty lists and results. |
| TaskRunner.Runner.AddOperation | neubot_cdn_test/__main__.py:197 | Appends to the queue and increments the counter, logging the counter's new value. |
| TaskRunner.Runner.Start | neubot_cdn_test/__main__.py:204 | The executor takes the head of the queue and puts it in flight; the counter and the invariant are unchanged. |
| TaskRunner.Runner.Fire | neubot_cdn_test/__main__.py:40 | The Deferred of the `i`-th started operation fires: it leaves the in-flight list, and nothing else has changed yet. |
| TaskRunner.Runner.DecreaseCounter | neubot_cdn_test/__main__.py:31 | Decrements the counter, logging its new value. Nothing else changes. |
| CdnTest.DecrementFirstReadsZero | neubot_cdn_test/__main__.py:81-85 | When a callback completes while the counter is 1, its first logged call is the decrement to 0, followed by the additions of its children (counters 1, 2, ...). The counter ends at the number of children. |
| CdnTest.IssuedExtends | neubot_cdn_test/__main__.py:26 | The start phase (`setdefault` at lines 26, 47, 124-125, 140-141) adds that operation's placeholder leaf, never overwrites one, and adds no server. |
| CdnTest.Issue | neubot_cdn_test/__main__.py:121-126 | The executor moves the head of the queue in flight and runs its start phase. The counter and the runner invariant stay unchanged. |
| CdnTest.EnqueueAll | neubot_cdn_test/__main__.py:84-85 | The `add_operation` loop appends the follow-ons in order, one counter increment each. |
| CdnTest.Resolve4Result | neubot_cdn_test/__main__.py:74-85 | For whoami: writes `default_nameserver` and decrements, with no follow-ons. Otherwise: writes `A[name]`, decrements, then enqueues one reverse4 per IPv4 address. An unknown server is a lost callback. |
| CdnTest.Resolve4Error | neubot_cdn_test/__main__.py:87-90 | Writes the error into `A[name]` and decrements. An unknown server is a lost callback. |
| CdnTest.Resolve6Result | neubot_cdn_test/__main__.py:104-110 | Writes `AAAA[name]`, decrements, then enqueues one reverse6 per IPv6 address. |
| CdnTest.Resolve6Error | neubot_cdn_test/__main__.py:112-115 | Writes the error into the `A` table, as the code does, and decrements. |
| CdnTest.Reverse4Result | neubot_cdn_test/__main__.py:28-33 | Writes `ReverseA[address]`, decrements, then enqueues a traceroute of the address. |
| CdnTest.Reverse4Error | neubot_cdn_test/__main__.py:35-38 | Writes the error into `ReverseA[address]` and decrements. |
| CdnTest.Reverse6Result | neubot_cdn_test/__main__.py:49-54 | Writes `ReverseAAAA[address]`, decrements, then enqueues a traceroute of the address. |
| CdnTest.Reverse6Error | neubot_cdn_test/__main__.py:56-59 | Writes the error into `ReverseAAAA[address]` and decrements. |
| CdnTest.TracerouteResult | neubot_cdn_test/__main__.py:127-131 | Writes `traceroute[address]`, decrements, then enqueues a whois of the address. |
| CdnTest.TracerouteFailure | neubot_cdn_test/__main__.py:134 | With no errback registered, a failure runs nothing: the counter stays up. |
| CdnTest.WhoisResult | neubot_cdn_test/__main__.py:143-146 | Writes `whois[address]` and decrements. |
| CdnTest.WhoisFailure | neubot_cdn_test/__main__.py:149 | With no errback registered, a failure runs nothing: the counter stays up. |
| CdnTest.InitializeServer | neubot_cdn_test/__main__.py:170-177 | The name loop for one server builds that server's part of the skeleton; the queue and the counter stay unchanged. |
| CdnTest.Initialize | neubot_cdn_test/__main__.py:151-177 | Appends the inputs to `dns_servers` and `names` and builds the skeleton over the runner's lists. The queue, the counter and the runner invariant stay unchanged. |
| CdnTest.SeedServer | neubot_cdn_test/__main__.py:200-202 | Adds a resolve4 and a resolve6 per name for one server, in order. |
| CdnTest.SeedPairs | neubot_cdn_test/__main__.py:199-202 | Adds the resolves of every (server, name) pair, in nested-loop order. |
| CdnTest.Seed | neubot_cdn_test/__main__.py:197-202 | Adds the whoami probe, then every pair's resolves. The counter grows by the number added, and the runner invariant holds. |
| CdnTest.SeedOpsOnlyResolves | neubot_cdn_test/__main__.py:197-202 | Seeding adds only forward resolves. |
| CdnTest.Complete | neubot_cdn_test/__main__.py:40 | One Deferred fires, and its outcome picks the callback that runs. Either the callback runs to its end (one decrement, then its children) or it stops before the decrement. For each kind and outcome, the leaf written and the children added are those of the callback the source registers. The runner invariant holds, no server is added or removed, and the pending operations get smaller in the termination order. |
| CdnTest.CompleteResolve4 | neubot_cdn_test/__main__.py:74-92 | An answer runs the result callback: for whoami it writes `default_nameserver`; otherwise it writes `A[name]`, then adds one reverse4 per IPv4 address of the answer. A failure runs the error callback into `A[name]`. A server missing from `results` drops the callback. |
| CdnTest.Resolve6ErrorOverwritesA | neubot_cdn_test/__main__.py:112-115 | A failed resolve6 replaces the `A` leaf of its name (the resolve4's leaf) with the error, and leaves the `AAAA` table as it was. |
| CdnTest.CompleteResolve6 | neubot_cdn_test/__main__.py:104-117 | An answer writes `AAAA[name]` and adds one reverse6 per IPv6 address. A failure writes into `A[name]`. A server missing from `results` drops the callback. |
| CdnTest.CompleteReverse | neubot_cdn_test/__main__.py:28-40 | A success writes `ReverseA` or `ReverseAAAA` at the address and adds its traceroute; a failure writes the error there and adds nothing (likewise lines 49-61). |
| CdnTest.CompleteTraceroute | neubot_cdn_test/__main__.py:127-134 | A success writes `traceroute[address]` and adds its whois; a failure runs no callback and is dropped. |
| CdnTest.CompleteWhois | neubot_cdn_test/__main__.py:143-149 | A success writes `whois[address]` and adds nothing; a failure runs no callback and is dropped. |
| CdnTest.Run | neubot_cdn_test/__main__.py:204-205 | Under any interleaving of starts and completions, and any outcome of each completion (chosen per step, so equal operations may end differently), the run ends with nothing queued or in flight. The counter then equals the number of lost callbacks, so it is zero only when none was lost. |
| CdnTest.Probe | neubot_cdn_test/__main__.py:179-205 | `main` without I/O: after initialize, seed and run, under any interleaving and any outcome per step, nothing is pending, the runner lists equal the inputs, and with at least one name every server has its tables. |

## Left out

- Twisted's reactor, Deferreds and callback registration are not modelled as such. The executor (`task_runner.TaskRunner.execute`) is not part of this model either. Completions are explicit events, and `Run` lets a `schedule` function choose the interleaving. The runner's own scheduling, concurrency limits and stopping rule are therefore not captured. The stopping rule may stop the run as soon as the counter reads zero, and `CdnTest.DecrementFirstReadsZero` shows that the counter reads zero in the log while follow-ons are still to be added.
- The DNS transport is left out: `lookup_name4`/`lookup_name6` as called from `__main__.py`, `lookup_name`, `lookup` and the resolver. A forward lookup's outcome is a parameter (`answers`): either records delivered to the result callback or a failure delivered to the errback. The wrapping of errors into `LookupErr` passed on through `callback` is not modelled.
- The `reverse_lookup`, `traceroute` and `whois` modules (and `whois.py`'s process polling) are not part of this model. Their outcomes are a parameter (`probes`), as uninterpreted strings (`Repr`). For reverse lookups this string stands for `dict_repr()` (`__main__.py:30`, `:51`). Traceroute and whois results are stored raw (`__main__.py:129`, `:145`).
- The calls in `__main__.py` do not match `lookup_name.py` as it stands. `__main__.py:100,102` call `lookup_name6(name, server=server)` and `lookup_name6(name)`, but `lookup_name.py:136` declares `lookup_name6(server, name)`, so both calls raise TypeError when the operation starts. `lookup_name4` is not defined in `lookup_name.py` at all. `__main__.py:77,81,106` call `result.dict_repr()`, which neither `LookupAnswer` nor `LookupErr` defines. The model assumes a transport that matches `__main__`'s calls and delivers a `LookupAnswer` together with an opaque `dict_repr()` string (the `repr` of `Answered`).
- `socket.inet_ntop` is a function parameter (`Ntop`): address formatting is not modelled.
- JSON rendering is left out (`json.dumps`, `indent`, `str()` of message fields). `StrContent` and `LookupErr.Content` produce the list of entries that would be dumped.
- File reading in `op_initialize`, command-line parsing, the prints, the logging, and the pickle/pprint output of `main` are plain I/O, so they are left out. `Initialize` and `Probe` take the hostnames and servers as sequences.
- The mapping is structured as three flat keys plus per-server tables. A DNS server literally named `default_nameserver`, `traceroute` or `whois` would collide with a flat key in the code's single dictionary; that collision is not modelled.
- Only A/AAAA is dispatched in `_address_to_string`. Other record fields (`name`, `cls`, `ttl`, `auth`, the payload's `ttl`) are copied, not interpreted.
- LookupName.LookupAnswer.JoinIPv4IPv6: a join where both `ans` are the same non-empty list never ends in the code, because it appends to the list it iterates. This happens for a self-join, and also for two answers built from one result tuple (`lookup_name.py:22`). The model treats `ans` as a value and requires distinct objects. Two distinct answers over one list therefore get `ans + ans` instead of not terminating.
- `lookup`'s joins of mixed kinds (a `LookupAnswer` joined with a `LookupErr`, or the reverse) are left out. They fail on a missing attribute, and that path lies in the transport code left out above.
