# Verified model of the RDMA/MPI benchmark protocols

This project models the protocols inside a suite of RDMA and MPI micro-benchmarks and proves that
they do what the suite relies on.

- **The two-role RDMA run.** A client and a server carve request buffers out of registered memory,
  exchange addresses and keys, run `repeat` rounds of Send, Read or Write with selective
  signalling, synchronise on an "End" message and print a SHA1 of their buffers. The log
  processor compares the two digests. `Nic.dfy` models two connected adapters whose transmit,
  accept, land, acknowledge, refuse and flush steps interleave freely with both programs
  (`RdmaRun.dfy`); either queue pair may fail at any time, and the library may refuse any post.
  Theorem `Benchmark.BenchmarkKeepsItsPromise` says when digests are printed and when they agree.
- **The N-rank MPI run.** Barriers, fire-and-forget sends, overlapping receives into one buffer and
  a digest check, all on one tag (`MpiPlan.dfy`, `MpiRun.dfy`): round skew, channel contents,
  phase separation, broadcast correctness, deadlock freedom and termination for every size, count,
  repeat and direction, and exactly when releasing the buffer at the end is safe
  (`MpiFreed.ReleaseSafeIff`).
- **The control-signal program**: its slots, writes and completions against absolute deadlines
  (`Pacing.dfy`) and the whole two-party run with its two-way exchange (`ControlRun.dfy`).
- **The latency report** (`Report.dfy`), **the full-mesh
  launch rule** (`Mesh.dfy`), and the routines these rest on: buffer carving (`Buffers.dfy`), the
  memory-region exchange (`Exchange.dfy`), posting and completing (`Completions.dfy`), connection
  set-up (`Connection.dfy`), parameter validation (`Params.dfy`), memory and byte order
  (`Memory.dfy`).

`dafny verify dfyconfig.toml` checks everything.

## What is modelled how

Routines that fill arrays or change objects are methods on arrays and classes; the library's answers
are parameters, so every exit path is covered. The two distributed runs are transition systems:
each program counter value is a place in the C code where the next statement can be reached, and
the adapters and the message layer take their own steps in between. A queue is a history with
cursors. `Times`, `SlotOf` are multiplication and remainder by repeated addition and subtraction
(`Memory.TimesIsProduct`, `Memory.SlotIsRemainder`).

The adapter follows the reliable-connection rules of the InfiniBand Architecture Specification,
Volume 1, chapter 9 and section 10.8: requests are processed in posting order, a Send waits for a
posted receive (the connection manager's default is to retry without limit), a Write may be
acknowledged before it is visible, a later Send or Read is not processed before earlier Writes are
visible, and a polled completion frees the queue slots of its request and of every earlier one. A
request that no region permits, or a message too long for its receive, is answered with an error
after every earlier request; both queue pairs then enter the error state, in which each request
that was not acknowledged, signalled or not, and each later one completes with an error, and so
does each receive without a message. A failing link or adapter does the same to one side. The
queue depth is whatever the adapter granted, at least `MAX_WR`. The message layer follows the
non-overtaking rule of section 3.5 of the MPI standard, version 3.1; the payload of a send may be
read at any time until delivery, which may be after the sender has released its buffer and anything
may be found there, and `MPI_Send` may or may not buffer.

## Where the code falls short of its promise

Each of these is a theorem about the code as it is.

- In throughput mode a round posts `count` requests of which only the last is signalled. The run
  finishes exactly when `count` fits the granted queue depth (`RdmaRun.Workable`); otherwise the last
  post fails, is still waited for, and the client spins for ever (`RdmaTheorems.RunsStop`). The
  default count with any warm-up is such a case (`RdmaStuck.DefaultCountWithWarmup`).
- `send_and_wait_requests` counts failures, but a failed post of a request that it then waits for is
  not reported: the wait spins (`Completions.SendAndWaitRequests`). The control loop waits for
  `count` completions after a failed post, too, and hangs unless a posted write fails
  (`Pacing.PacedLoop`).
- A data post that the library refuses is only counted (dccs_rdma.h:758-770, rdma_main.c:90-92). In
  throughput mode a Read or Write run goes on without it and prints its digests; they are those of
  equal bytes exactly when the slices that never had a request were equal from the start
  (`RdmaTheorems.EndToEndAgreement`), and for every workable configuration and every request but the
  last there is a run that ends properly without it (`RdmaRefused.PassedOver`). It can also let a round
  through that is too long for the queue (`Completions.ReturnsIffLastPosted`).
- A receive that the library refuses in `recv_requests` is only counted, too, and then waited for: the
  server spins there for ever, even if its queue pair fails (`RdmaRounds.RefusedReceiveSpins`).
- `run` in `mpi_main.c` frees the buffer while its own fire-and-forget sends may be unread. No run
  does so exactly in direction 1-N or with one rank; with a synchronous `MPI_Send`, exactly in 1-N and
  N-1 or with at most two ranks (`MpiFreed.ReleaseSafeIff`). Otherwise ranks that began with equal
  packets can end up with different ones (`MpiFreed.EqualBuffersIff`) and a mismatch be reported
  (`MpiMismatch.EqualPacketsMismatch`).
- After a mismatch rank 0 returns without receiving the other digests, and the ranks after the one it
  names stay in `MPI_Send` (`MpiTermination.MismatchHolds`).
- `get_remote_mr_info` returns a positive value on a count mismatch, so its callers continue with
  remote addresses of zero. The count is sent in host byte order, so this happens between hosts of
  different byte order unless the count reads the same both ways (`Exchange.GetRemoteMrInfo`,
  `Memory.RawWordAgrees`). The two-role run then has its first request refused, goes through its
  remaining rounds on error completions and ends with an error on both sides
  (`RdmaStuck.MisreadEnds`); the control program deadlocks inside its exchange
  (`ControlRun.GarbledDeadlocks`).
- `dccs_rdma_send_comp` asks for `num` entries on every poll, which is safe exactly when `num <= 1` or
  no more than `num` completions are outstanding (`Completions.HarvestSafeIff`). Every caller passes 1, or has posted at most `num`.
- `dccs_connect` keeps the endpoint when setting the type of service fails
  (`Connection.TosFailureLeaks`).
- `allocate_buffer` passes on a `NULL` block or registration and returns 0; `deallocate_buffer` then
  dereferences the first `NULL` registration (`Buffers.DeallocateBuffer`).
- `requests[warmup_count]` exists exactly when the user's own count is positive and the sum does not
  wrap (`Params.WarmupIndexExists`).
- `n % (params.repeat / 100)` divides by zero exactly when `repeat < 100` (`Pacing.PacedLoop`).
- The client of the control program never writes, so "Server received" is the digest of a buffer that
  nobody has written; only "Server sent" and "Client received" are bound to agree
  (`ControlRun.ControlAgreement`).
- The port rule of the mesh script yields a port number only for hosts of at most two digits
  (`Mesh.PortExists`).
- `verify_checksum` compares digests with `strncmp`, which accepts exactly the pairs that agree up to
  the first zero byte (`MpiRun.StrncmpIs`).
- "All ranks stand at a barrier" does not mean that no message is in flight: a rank that only sends
  can be one barrier ahead (`MpiTheorems.RootRunsAhead`). The exact statement is
  `MpiTheorems.InFlightAtBarriers`.

Two scripts ask for what the programs refuse: `script/microbenchmark/run_control.sh` passes a count of
8 where `control_main.c` asserts 1, and `script/microbenchmark/rdma_sync.sh` passes the verb "send",
which `parse_args` rejects (Send is what it uses when no verb is given). The model follows the
programs.

## Model

| member | source | states |
|---|---|---|
| Benchmark.BenchmarkKeepsItsPromise | src/microbenchmark/rdma_main.c:34-146 | for accepted parameters, any verb, mode, buffer split and adapter: every run is bounded whatever fails; two printed digests are equal whichever queue pair fails, unless a post was refused, the verb is not Send and the mode is throughput; if workable and nothing fails, a run can go on until both sides are done with equal digests printed; if not workable, no run without a refused post prints a digest |
| Benchmark.CarvedIsWellFormed | src/microbenchmark/dccs_rdma.h:307-352 | what buffer carving produces on the two sides, with different MR counts, is all the run theorems need |
| Benchmark.CarvedSlicesPermitted | src/microbenchmark/dccs_rdma.h:492-497 | each address the server sends is covered by the registration whose key goes with it |
| Benchmark.CarvedIsTheLayout | src/microbenchmark/dccs_rdma.h:338-349 | the addresses and keys the run starts from are those allocate_buffer stored in the request array |
| Benchmark.AllocatedIsReady | src/microbenchmark/dccs_rdma.h:307-352 | unless an answer was NULL, a host that has allocated meets what the run asks of it |
| Benchmark.RoundsAgree | src/microbenchmark/dccs_rdma.h:696-793 | the round as code returns exactly where the run does not get stuck, and posts request n with the slice and signal flag the run has at that position of every round |
| RdmaTheorems.EndToEndAgreement | src/microbenchmark/rdma_main.c:50-146 | in every state of every run, failures and refused posts included, the printed digests are those of the source's slices and of the source's slices that had a request mixed with the others' own; they agree when every slice had one, which is so unless a post was refused, the verb is not Send and the mode is throughput; the hashed bytes are equal if and only if the remaining slices were equal from the start |
| RdmaTheorems.FinalMemory | src/microbenchmark/rdma_main.c:50-146 | at the end both digests are printed and slice n equals slice n for all n if each had its request; no byte outside the slices changes and the source side's memory does not change at all |
| RdmaTheorems.PhaseAlignment | src/microbenchmark/rdma_main.c:69-143 | at every acceptance the k-th request is for the k-th slice that was posted, and "End" comes after all of them when they are visible; if no post was refused it is request n of round r with k = r*count+n, from the client's slice n, and a message meets the receive for the server's slice n |
| RdmaTheorems.ServerSeesEverything | src/microbenchmark/rdma_main.c:136-146 | when the server leaves recv_message every request that was posted has landed and its buffer holds "End"; with the Send verb, or if no post was refused, those are all of them |
| RdmaTheorems.QueueDepth | src/microbenchmark/dccs_rdma.h:703-767 | until an error is reported or a post refused, which takes a failure: at most 1 request in the send queue in latency mode, at most count in throughput mode, 0 between rounds, and every post finds room if count fits; at all times no more than the depth |
| RdmaTheorems.RunsTerminate | src/microbenchmark/rdma_main.c:69-143 | every run of every configuration, failures and refused posts included, has at most 20*repeat*count+62 steps |
| RdmaTheorems.RunsStop | src/microbenchmark/rdma_main.c:69-146 | a run without failures that cannot go on has ended properly on both sides, or the queue is too small and the client polls for a request it could not post; a program whose queue pair failed has returned, unless a post of its own was refused |
| RdmaTheorems.RunCompletes | src/microbenchmark/rdma_main.c:69-146 | every workable run without failures, however far it got, extends to one that ends properly |
| RdmaTheorems.StepKeeps | src/microbenchmark/rdma_main.c:50-143 | every enabled step of a program or adapter, error completions, flushes, failures and refused posts included, keeps the invariant |
| RdmaRounds.ClientSkipsNothing | src/microbenchmark/dccs_rdma.h:728-770 | whatever fails, a client that got to its terminating message has gone through every request of every round and waited for each signalled one; one that gave up has, too, or gave up in the exchange because a post was refused or a receive failed |
| RdmaRounds.ServerSkipsNothing | src/microbenchmark/dccs_rdma.h:671-694 | with Send, a server that got past its rounds has waited for every receive of every round |
| RdmaRounds.RefusedReceiveSpins | src/microbenchmark/dccs_rdma.h:671-694 | from the state in which a slice's receive is refused on, the server waits for that slice in every later state and prints no digest |
| RdmaLiveness.NoDeadlock | src/microbenchmark/rdma_main.c:50-143 | as long as nothing has failed and a side is not done, some step other than a failure is enabled |
| RdmaLiveness.FullSpins | src/microbenchmark/dccs_rdma.h:728-767 | with a queue that is too small a run stops with the client polling for the last request of its first round, the queue full and no completion |
| RdmaLiveness.FailureEnds | src/microbenchmark/rdma_main.c:90-146 | a program whose queue pair has failed can go on until it returns, unless a post of its own was refused |
| RdmaBounds.StepAdvances | src/microbenchmark/rdma_main.c:69-143 | every step of every kind moves a program forward or adds an adapter event |
| RdmaBounds.BrokenCompletes | src/microbenchmark/dccs_rdma.h:252-267 | a failed queue pair owes a completion for a request that holds a slot, unless the newest requests were unsignalled and had already succeeded |
| RdmaStuck.UnworkableNeverFinishes | src/microbenchmark/rdma_main.c:90-146 | with a misread count, or with a round larger than the queue and no post refused for another reason, neither side ever finishes or prints a digest, whichever queue pair fails |
| RdmaStuck.NeverPastFirstRound | src/microbenchmark/dccs_rdma.h:728-767 | with a round larger than the queue and nothing failing, the client stays in the exchange or its first round and never sees a completion |
| RdmaStuck.NullIsRefused | src/microbenchmark/dccs_rdma.h:422-425 | after a misread count the requests carry address zero; none is accepted, and the first is refused with an answer |
| RdmaStuck.MisreadEnds | src/microbenchmark/rdma_main.c:90-134 | a misread run that cannot go on has ended with an error on both sides: the refusal completes with an error, the remaining rounds are gone through, the terminating message fails |
| RdmaStuck.MisreadStep | src/microbenchmark/dccs_rdma.h:263-267 | every step of a misread run, error completions included, keeps both sides from a digest |
| RdmaStuck.DefaultCountWithWarmup | src/microbenchmark/dccs_utils.h:440-448 | the default count with any warm-up, short of wrap-around, overfills a queue of MAX_WR |
| RdmaStuck.ThousandFit | src/microbenchmark/dccs_config.h:21-21 | a count of at most 1000, read correctly, is workable |
| RdmaRefused.PassedOver | src/microbenchmark/dccs_rdma.h:758-770 | in throughput mode with Read or Write, on every workable configuration and for every request but the last of its round: some run ends properly with both digests printed although that slice never had a request; the hashed bytes differ if the slices differed |
| RdmaRefused.SkimGoesOn | src/microbenchmark/rdma_main.c:90-126 | a run that passes over one request of every round can go on until both sides are done |
| RdmaClient.ClientHasRoom | src/microbenchmark/dccs_rdma.h:728-756 | a post never meets a full queue when count fits and no error has been reported |
| RdmaClient.ClientPostOk | src/microbenchmark/dccs_rdma.h:728-762 | posting request n of round r puts the right request at the right position and leaves the counters right |
| RdmaClient.ClientPollOk | src/microbenchmark/dccs_rdma.h:762-767 | a polled completion proves every request acknowledged and empties the queue |
| RdmaClient.ClientErrorKeeps | src/microbenchmark/dccs_rdma.h:263-267 | an error taken from the queue leaves the client in a state from which it never reaches its digest |
| RdmaClient.ClientNoPostKeeps | src/microbenchmark/dccs_rdma.h:758-770 | a refused post leaves the loop as if it had been made, without the request; outside the loop it ends the program |
| RdmaClient.CountIsRight | src/microbenchmark/dccs_rdma.h:408-425 | the client reads the server's count when byte orders allow it |
| RdmaClient.InfoIsRight | src/microbenchmark/dccs_rdma.h:431-452 | the client decodes the server's addresses and keys |
| RdmaSteps.EndMeansLanded | src/microbenchmark/dccs_rdma.h:585-606 | once "End" has arrived every request that was posted is visible; with the Send verb that is every request |
| RdmaAdapterSteps.MessageMeetsReceive | src/microbenchmark/dccs_rdma.h:671-691 | the k-th message meets the k-th receive: data a slice, the one of the same request if none was passed over, "End" the control buffer if none was |
| RdmaAdapterSteps.ClientAcceptKeeps | src/microbenchmark/dccs_rdma.h:671-691 | accepting a Send, Write or Read keeps the invariant |
| RdmaAdapterSteps.LandMemory | src/microbenchmark/dccs_rdma.h:749-751 | a landing Write makes its slice current and disturbs no other |
| RdmaAdapterSteps.AckMemory | src/microbenchmark/dccs_rdma.h:746-748 | an arriving Read response makes its slice current and disturbs no other |
| RdmaAdapterSteps.NothingRefused | src/microbenchmark/dccs_rdma.h:447-497 | unless the count is misread or a Send was passed over, no request and no message of the run is ever refused |
| RdmaInvariant.CopyOne | src/microbenchmark/dccs_rdma.h:728-756 | one more transfer makes its slice current, keeps the others, and touches nothing outside |
| RdmaInvariant.MixedHash | src/microbenchmark/dccs_rdma.h:797-818 | slices that were copied feed the hash the source's bytes, the others their own, in request order |
| RdmaInvariant.InputsEqualIff | src/microbenchmark/dccs_rdma.h:797-818 | both sides hash the same bytes if and only if the slices without a request were equal from the start |
| RdmaInvariant.InputBytes | src/microbenchmark/dccs_rdma.h:797-818 | the hashed bytes one by one: byte n*length+k is byte k of slice n, of the source's memory or, on the other side and without a request for n, of its own |
| RdmaInvariant.IndexFacts | src/microbenchmark/rdma_main.c:69-126 | request n of round r is the (r*count+n)-th, and what follows it |
| Nic.LastCompletionDrains | src/microbenchmark/dccs_rdma.h:703-767 | a completion of the newest request, the only one owed, proves all requests acknowledged and frees the queue |
| Nic.AcceptKeeps | src/microbenchmark/dccs_rdma.h:200-209 | accepting requests keeps order, completion and delivery rules for any program; a request that is not permitted is refused instead |
| Nic.AckKeeps | src/microbenchmark/dccs_rdma.h:246-275 | good completions stay exactly the acknowledged signalled requests in posting order, error completions those of the requests after them |
| Nic.FlushKeeps | src/microbenchmark/dccs_rdma.h:263-267 | in the error state each request that was not acknowledged completes with an error, once, in order, signalled or not |
| Nic.PostKeeps | src/microbenchmark/dccs_rdma.h:184-194 | posting keeps the adapter rules |
| Completions.SendComp | src/microbenchmark/dccs_rdma.h:246-275 | for every schedule of polls: completions are stored in order at their places, success means exactly num |
| Completions.HarvestSafe | src/microbenchmark/dccs_rdma.h:246-275 | with no more than num outstanding no schedule writes past the array, and -1 means a failed poll or request |
| Completions.HarvestComplete | src/microbenchmark/dccs_rdma.h:246-275 | empty and partial polls that bring num good completions end in num |
| Completions.HarvestSafeIff | src/microbenchmark/dccs_rdma.h:252-252 | never overruns on any schedule if and only if num <= 1 or outstanding <= num |
| Completions.HarvestOutcome | src/microbenchmark/dccs_rdma.h:246-275 | with at most num outstanding, a schedule that delivers everything ends in failure if one is bad, in num if there are num, and otherwise polls for ever |
| Completions.FailedPollEnds | src/microbenchmark/dccs_rdma.h:256-259 | a poll that fails ends the call, unless enough good completions came before it |
| Completions.SendAndWaitRequests | src/microbenchmark/dccs_rdma.h:696-793 | from any queue, for every mix of failed posts and error completions: the result, what is left held, what was posted and the most held at once are those of the reference round |
| Completions.EmptyRound | src/microbenchmark/dccs_rdma.h:696-793 | from an empty queue a round returns if and only if a completion comes for every wait, with minus the number of failed requests; without failures everything is posted and the queue empty; never more than count (1 in latency mode) held |
| Completions.ReturnsIffLastPosted | src/microbenchmark/dccs_rdma.h:728-767 | in throughput mode a round returns if and only if its last request is posted or a request that found a slot fails |
| Completions.GoodRound | src/microbenchmark/dccs_rdma.h:696-793 | with every post accepted and every request good, a round returns if and only if the queue has a slot (latency) or count slots (throughput), and reports no failure |
| Completions.SendQueue.Complete | src/microbenchmark/dccs_rdma.h:246-275 | spins for ever if and only if every request held is unsignalled and succeeds; otherwise frees the slots up to the oldest request that is signalled or failed and returns its status |
| Completions.SendQueue.CompleteAll | src/microbenchmark/control_main.c:185-190 | at the call that asks for count, for every schedule of polls, failed ones included: never overruns; frees the queue if all count were posted and come in good |
| Completions.SendQueue.Post | src/microbenchmark/dccs_rdma.h:184-239 | a post fails exactly when no slot is free or the library refuses it, and then changes nothing |
| Params.Validate | src/microbenchmark/dccs_utils.h:440-452 | accepts exactly the records that are valid once the warm-up is added, and changes no field but the count |
| Params.AcceptedFields | src/microbenchmark/dccs_utils.h:440-452 | on acceptance every field is the user's, except that in throughput mode the warm-up is added to the count, less 2^64 if the sum reaches it |
| Params.AcceptedIff | src/microbenchmark/dccs_utils.h:440-452 | which options are accepted, and for each message exactly which options get it |
| Params.AcceptedIsValid | src/microbenchmark/dccs_utils.h:448-452 | accepted parameters give at least one whole request per memory region; without warm-up exactly the valid records are accepted |
| Params.WarmupIndexExists | src/microbenchmark/dccs_rdma.h:915-922 | requests[warmup_count] exists if and only if the user's count is positive and the sum does not wrap |
| Params.WarmupOnlyIsAccepted | src/microbenchmark/dccs_utils.h:440-448 | a count of zero with warm-up is accepted |
| Buffers.SliceInBlock | src/microbenchmark/dccs_rdma.h:317-349 | a slice lies inside the block named by its mr |
| Buffers.SlicesApart | src/microbenchmark/dccs_rdma.h:317-349 | slices of different requests are disjoint |
| Buffers.SlicesTile | src/microbenchmark/dccs_rdma.h:317-349 | every byte of every block belongs to exactly one slice |
| Buffers.AllocateBuffer | src/microbenchmark/dccs_rdma.h:307-352 | whatever the allocator and the driver answer, every request gets its slice and its block's registration or NULL; exactly the blocks and registrations that were granted are added |
| Buffers.DeallocateBuffer | src/microbenchmark/dccs_rdma.h:357-369 | returns if and only if no registration is NULL; bases and handles before the first NULL are released once each, nothing else |
| Buffers.AllocateThenDeallocate | src/microbenchmark/dccs_rdma.h:307-369 | the pair restores the heap and the registrations, and succeeds if and only if every registration did |
| Memory.WordRoundTrip | src/microbenchmark/dccs_rdma.h:19-27 | a converted word arrives unchanged for all pairs of byte orders |
| Memory.NetworkBytes | src/microbenchmark/dccs_rdma.h:19-27 | a converted word lies in memory most significant byte first on every host |
| Memory.RawWordAgrees | src/microbenchmark/dccs_rdma.h:408-422 | an unconverted word survives if and only if byte orders agree or it is byte-symmetric |
| Memory.RawWordMisread | src/microbenchmark/dccs_rdma.h:408-422 | a count of 1 is misread by the other byte order |
| Memory.LittleByteAt | src/microbenchmark/dccs_rdma.h:19-27 | byte i of a little-endian word is its i-th digit to the base 256 |
| Exchange.InfosRoundTrip | src/microbenchmark/dccs_rdma.h:447-452 | every address and key is read as it was written |
| Exchange.DecodeEncode | src/microbenchmark/dccs_rdma.h:447-497 | decoding the sent array gives the sender's list |
| Exchange.EntryLayout | src/microbenchmark/dccs_rdma.h:492-497 | entry n is at byte 16*n, address and key most significant byte first whatever the sender's order, then padding |
| Exchange.GetRemoteMrInfo | src/microbenchmark/dccs_rdma.h:376-473 | on every exit registrations are balanced and the update is all or nothing; the caller's test misses exactly a count mismatch |
| Exchange.SendLocalMrInfo | src/microbenchmark/dccs_rdma.h:478-558 | on every exit registrations are balanced; the count goes before the array; success exactly when every call succeeds |
| Exchange.ExchangeOnce | src/microbenchmark/dccs_rdma.h:376-558 | both routines together install the sender's list exactly when the raw count survives, else nothing, and report success either way |
| Exchange.InstallRemote | src/microbenchmark/dccs_rdma.h:447-452 | the copying loop installs the decoded array |
| Exchange.FillInfos | src/microbenchmark/dccs_rdma.h:492-497 | the filling loop writes the encoded array |
| Connection.Connect | src/microbenchmark/dccs_rdma.h:42-83 | success keeps the endpoint; a failing exit keeps nothing, except the type-of-service exit, which keeps the endpoint |
| Connection.TosFailureLeaks | src/microbenchmark/dccs_rdma.h:65-67 | a failure of the option call alone leaves the endpoint held |
| Connection.Listen | src/microbenchmark/dccs_rdma.h:85-136 | success keeps both endpoints, every failing exit keeps nothing and returns the first failing call's result |
| Connection.Message | src/microbenchmark/dccs_rdma.h:562-606 | registrations are balanced on every exit; success exactly when all three calls succeed |
| MpiTermination.RunsTerminate | src/microbenchmark/mpi_main.c:193-250 | every run is bounded; one that cannot go on has all ranks done, or rank 0 has reported a mismatch, the ranks it heard from are done and the others are held in MPI_Send; no mismatch with equal packets or in 1-N as long as releases are safe |
| MpiTermination.RunCompletes | src/microbenchmark/mpi_main.c:193-250 | every run extends, with no further send buffered, to one that has so ended; with equal packets or in 1-N and safe releases, with all ranks done |
| MpiTermination.MismatchHolds | src/microbenchmark/mpi_main.c:40-47 | with a synchronous MPI_Send a mismatch holds exactly the ranks after the one it names |
| MpiTermination.RankAdvances | src/microbenchmark/mpi_main.c:221-250 | every step advances the rank that takes it |
| MpiLiveness.NoDeadlock | src/microbenchmark/mpi_main.c:221-250 | as long as ranks are left and no mismatch holds them, a rank can go on or a message can be delivered |
| MpiLiveness.NobodyInBarrier | src/microbenchmark/mpi_main.c:221-222 | when nothing else can move, no rank is held in a barrier |
| MpiLiveness.NobodyWaits | src/microbenchmark/mpi_main.c:150-160 | when nothing else can move, no rank is held waiting for data |
| MpiLiveness.DeliveryReady | src/microbenchmark/mpi_main.c:128-157 | a sent message with a posted receive fits it and can be delivered |
| MpiTheorems.RoundSkew | src/microbenchmark/mpi_main.c:221-222 | rounds of any two ranks differ by at most one |
| MpiTheorems.InFlightAtBarriers | src/microbenchmark/mpi_main.c:221-238 | between two ranks at barriers exactly the rounds the sender is ahead are in flight; none if and only if nothing is ever sent or it is the same barrier |
| MpiTheorems.ChannelsEmptyAtBarrier | src/microbenchmark/mpi_main.c:221-238 | with all ranks at one barrier every channel is empty |
| MpiTheorems.RootRunsAhead | src/microbenchmark/mpi_main.c:221-238 | a run in which all ranks are at barriers and a channel is not empty |
| MpiTheorems.PhaseSeparation | src/microbenchmark/mpi_main.c:33-56 | at every delivery the receive is for slot n if and only if the message is data sent from slot n, and for a digest if and only if the message is one; a digest is the last message of its channel and both ranks have left their rounds |
| MpiContent.BroadcastCorrect | src/microbenchmark/mpi_main.c:193-248 | in 1-N rank 0's buffer never changes and every rank that completed a round holds it whole |
| MpiContent.EqualBuffersStayEqual | src/microbenchmark/mpi_main.c:193-248 | ranks that begin equal stay equal in every direction and interleaving in which releases are safe |
| MpiContent.NoMismatch | src/microbenchmark/mpi_main.c:33-56 | with equal packets, as long as releases are safe, the digest check reports no mismatch |
| MpiDigest.DigestCheck | src/microbenchmark/mpi_main.c:33-56 | in every state of every run: each rank that rank 0 has checked sent the hash of its buffer, and its 20 bytes and rank 0's agree up to their first common zero byte; a reported rank sent one that differs before it |
| MpiDigest.MismatchIff | src/microbenchmark/mpi_main.c:33-56 | a run that is over, because all ranks are done or one is reported, has all ranks done if and only if every rank's digest agrees with rank 0's up to their first common zero byte within 20; otherwise the reported rank is the first whose digest does not |
| MpiContent.PayloadOk | src/microbenchmark/mpi_main.c:79-98 | a payload is the original slot whenever it is read before the release |
| MpiContent.CarefulIsSafe | src/microbenchmark/mpi_main.c:250-251 | in direction 1-N, with one rank, or with a synchronous MPI_Send in N-1 or with two ranks, no released buffer has an unread send |
| MpiFreed.ReleaseSafeIff | src/microbenchmark/mpi_main.c:250-251 | no run releases a buffer with an unread send if and only if the direction is 1-N or there is one rank; with a synchronous MPI_Send, if and only if it is not N-N or there are at most two ranks |
| MpiFreed.EqualBuffersIff | src/microbenchmark/mpi_main.c:193-251 | ranks that begin with one packet keep it in every run under exactly the same conditions |
| MpiFreed.DanglingRun | src/microbenchmark/mpi_main.c:88-91 | in every other configuration there is a run in which rank 1 has returned and a send of its last round is unread |
| MpiMismatch.EqualPacketsMismatch | src/microbenchmark/mpi_main.c:33-56 | a run in which equal packets end in a reported mismatch |
| MpiOrigins.SlotsStayOriginal | src/microbenchmark/mpi_main.c:128-157 | in every direction and whatever the packets: as long as releases are safe, slot n of every buffer is slot n of the packet some rank began with |
| MpiOrigins.GatherCorrect | src/microbenchmark/mpi_main.c:128-248 | in N-1 no sender's buffer ever changes, and once rank 0 has completed a round each of its slots is that slot of some sender's packet, as long as releases are safe |
| MpiContent.SlotsCover | src/microbenchmark/mpi_main.c:132-157 | equal slots make equal buffers |
| MpiSteps.StepKeeps | src/microbenchmark/mpi_main.c:221-250 | every enabled step keeps the invariant, for all configurations |
| MpiPlan.TableMatches | src/microbenchmark/mpi_main.c:193-216 | a rank expects messages from exactly the ranks that send to it, never itself |
| MpiPlan.IssueMessages | src/microbenchmark/mpi_main.c:61-163 | the loops fill the request array exactly, in plan order, with the matching byte count; an invalid peer issues nothing |
| MpiPlan.PlanFits | src/microbenchmark/mpi_main.c:67-73 | a call issues request_count*count requests |
| MpiPlan.PlanInOrder | src/microbenchmark/mpi_main.c:79-98 | each selected peer gets the slots in order |
| MpiPlan.MessagesConserved | src/microbenchmark/mpi_main.c:193-238 | messages and bytes sent equal those received: (size-1)*count messages of length bytes, or size*(size-1)*count for N-N |
| MpiRun.StrncmpIs | src/microbenchmark/mpi_main.c:43-46 | accepts if and only if the digests agree up to and including the first zero byte |
| MpiRun.StrncmpReflexive | src/microbenchmark/mpi_main.c:43-46 | equal digests are accepted |
| MpiRun.StrncmpMissesDifference | src/microbenchmark/mpi_main.c:43-46 | some different digests are accepted |
| Pacing.WaitUntil | src/microbenchmark/control_main.c:21-23 | returns, and not before the target |
| Pacing.PacedLoop | src/microbenchmark/control_main.c:130-192 | the queue's history grows by the slots reached and nothing else: each posts its writes up to the first that fails, every one after a clock reading past the slot's deadline, then waits; start[n] is the reading before its last post and end[n] the one after its wait; start[n] >= t0+(n+1)*SLOT_NS, iterations ordered and disjoint; runs through if and only if every slot gets its completions, else breaks or hangs at the first that does not; never more than count requests held and none between slots; faults if and only if repeat < 100 |
| Pacing.WriteSlot | src/microbenchmark/control_main.c:149-190 | a slot posts signalled writes up to the first that fails, each after a clock reading, then waits for count; it ends as the polls decide and leaves the queue empty if it finishes |
| Pacing.WrittenIs | src/microbenchmark/control_main.c:149-165 | a slot's writes stop only for want of room or at one the library refuses |
| Pacing.AllSignalsSent | src/microbenchmark/control_main.c:142-192 | a loop that runs to its end has posted repeat*count writes, entry k for request k % count, all signalled and all successful |
| Pacing.SlotEnds | src/microbenchmark/control_main.c:149-190 | if no poll fails, a slot finishes if and only if all writes were posted and succeed, breaks the loop if a posted one fails, and hangs otherwise; with a failed poll it does not hang |
| Pacing.LoopRunsIff | src/microbenchmark/control_main.c:142-190 | with posts accepted and writes succeeding, any number of slots gets through if and only if 0 < count <= depth; otherwise the first slot hangs |
| Pacing.DeadlineIs | src/microbenchmark/control_main.c:139-140 | the deadline of slot n is t0 + 100000*(n+1) |
| Pacing.FirstStopIs | src/microbenchmark/control_main.c:142-190 | where the loop stops is the first slot that does not finish |
| Pacing.LagRecurrence | src/microbenchmark/control_main.c:139-192 | lag' = max(0, lag + work - SLOT_NS) |
| Pacing.LagIsLargestExcess | src/microbenchmark/control_main.c:139-192 | the lag is the largest excess of work over slots on any stretch that ends here |
| Pacing.LagShrinks | src/microbenchmark/control_main.c:139-192 | work of at most w regains at least SLOT_NS-w per iteration |
| Pacing.Recovery | src/microbenchmark/control_main.c:139-192 | an overrun D is gone within ceil(D/(SLOT_NS-w)) iterations |
| Pacing.RecoveryIsTight | src/microbenchmark/control_main.c:139-192 | with work of exactly w not one iteration sooner |
| Pacing.PacedIsAtBestIdeal | src/microbenchmark/control_main.c:139-192 | no recorded start is earlier than the ideal one |
| Report.LatencyReport | src/microbenchmark/dccs_rdma.h:832-896 | every reported figure, stated on the unsorted samples, which are the elapsed readings times 1000000 over the clock rate, and a sorted permutation of them; the ranks in order, each with its share of the samples; finished is the number of requests ended in time; sumsq <= length*(max-average)*(average-min) |
| Report.FirstPass | src/microbenchmark/dccs_rdma.h:851-869 | one pass gives the samples, their sum, true minimum and maximum, and the finished count |
| Report.LatenciesMeasure | src/microbenchmark/dccs_rdma.h:851-856 | latency times clock rate is the elapsed readings times 1000000 |
| Report.FinishedIs | src/microbenchmark/dccs_rdma.h:857-861 | the finished count is the number of requests that ended within 180 microseconds of the first start |
| Report.SecondPass | src/microbenchmark/dccs_rdma.h:880-884 | the sum of squared deviations |
| Report.SortLatencies | src/microbenchmark/dccs_utils.h:207-222 | sorted, and a permutation |
| Report.RankStatistics | src/microbenchmark/dccs_rdma.h:874-877 | min <= median <= percent90 <= percent99 <= max, extremes are the sorted ends, more than 1/2, 9/10, 99/100 of the samples are at most each, and no more than that below it |
| Report.TotalsPermute | src/microbenchmark/dccs_rdma.h:874-884 | sorting changes no sum and no rank count |
| Report.TwoPassIsOnePass | src/microbenchmark/dccs_rdma.h:878-886 | sumsq equals the sum of squares minus length*average^2 |
| Report.VarianceBound | src/microbenchmark/dccs_rdma.h:878-886 | sumsq <= length*(max-average)*(average-min) |
| Mesh.LaunchTraffic | script/opera/opera-ll-traffic.sh:47-101 | the two loops start exactly the launches of the host's place in the mesh |
| Mesh.PairJoinedOnce | script/opera/opera-ll-traffic.sh:54-101 | every pair gets one server on the higher host and one client on the lower, same port, nothing the other way |
| Mesh.NoConflicts | script/opera/opera-ll-traffic.sh:47-101 | per host, cores, peers and listening ports are distinct |
| Mesh.ConnectionCount | script/opera/run_opera_experiment.sh:22-22 | n*(n-1) processes in all |
| Mesh.PortExists | script/opera/opera-ll-traffic.sh:61-61 | prefix and host number make a port number if and only if the host has at most two digits |
| Mesh.PortReads | script/opera/opera-ll-traffic.sh:61-61 | the port's last digits, as many as the host number has, are the host number, and those before them are 100 |
| Mesh.CoreOfPeer | script/opera/opera-ll-traffic.sh:47-52 | every launch runs on the core of its peer: 8 for the first host and one more for each next |
| ControlRun.ControlAgreement | src/microbenchmark/control_main.c:77-243 | when the count is read correctly: no state of any run is a deadlock, both sides get the other's list, "Server sent" and "Client received" are both the hash of the server's outgoing slices joined in request order, when the loop is over every one of them lies byte for byte in the client's slice of that number after repeat*count writes, and the client's memory changes only in the slices it offered |
| ControlRun.ControlTerminates | src/microbenchmark/control_main.c:77-243 | every run is bounded |
| ControlRun.GarbledDeadlocks | src/microbenchmark/control_main.c:77-106 | when it is misread, every run deadlocks inside the exchange |
| ControlRun.NotStuck | src/microbenchmark/control_main.c:77-226 | as long as a side is not done some step is possible |

## Left out

- The control program's two-party run: messages pass when both sides are ready and nothing fails in it; its adapters would be those of the two-role run, and its slots are modelled with failed posts, polls and completions in `Pacing.dfy`.
- The two sides using different counts, lengths, verbs or repeats: both are given the same parameters.
- Retry limits: a Send waits for its receive without limit, as the connection manager's defaults have it; when a link gives up is the failure step's choice.
- A released buffer that can no longer be read at all: its sends deliver arbitrary bytes instead of ending the process.
- `send_requests` and `wait_requests`, whose only calls are commented out.
- Floating-point rounding, `sqrt`, and the rounding of `length*0.9`: reals, the variance, and `length*9/10`.
- SHA1 and `qsort` as algorithms: the hash is an arbitrary function, the sort any that sorts.
- 64-bit wrap-around of the pacing target.
- N-1 and N-N runs with different initial packets: which sender's slot a buffer ends up with depends on delivery order.
- The time stamps of `send_and_wait_requests`, and the address and key of a control write in `Pacing.dfy`, which posts by request number.
- `malloc_random`, `bin_to_hex_string`, logging, option parsing, CPU affinity, plotting and experiment scripts: they would only add easy members.
- Mesh.LaunchTraffic: takes host numbers in steps of two, as the script's own ranges are; the table from host names to addresses is not modelled.
