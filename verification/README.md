# Flash relay: a verified model

Flash relay moves TCP connections through one io_uring event loop per core: a worker accepts a client,
reads its request, asks a Hook off the ring what to do, and then replies, rejects, reads on, or relays
in both directions until both sides are done. This project models that engine and four smaller parts of
the repository in Dafny and proves what they promise.

`dafny verify dfyconfig.toml` checks everything.

## How it is laid out

The relay engine (`flashrelay/worker.go`, `flashrelay/flashrelay.go`):

- `RelayTypes`, `RelaySession`: the values, and what each op case does to one connection. A `Session`
  is the connection's fields together with everything outstanding for it (operations with the kernel,
  closes, Hook requests and results) and a record of what crossed its two sockets and what was charged.
- `RelayInv`, `RelayTeardown`, `RelaySteps`, `RelayDecide`: the invariant of one connection, phase by
  phase, and that every completion, Hook result, sweep and close keeps it.
- `RelayWorld`, `RelaySums`, `RelaySafety`: the whole worker as a state machine. Its events are the
  completions the loop takes off the ring and the moves of the world around it: a Hook returns, the
  kernel carries out a close, Stop is called, a batch ends. They come in any order and with any result
  the kernel may give. `RelaySafety.Reachable` puts every run inside the invariant.
- `RelayEffects`, `RelayWorldEffects`: what each event does, said of the world and not of the handlers: what is
  in flight afterwards, to whom and with which bytes, what is charged, what ends.
- `RelayLaws`, `RelayShutdown`, `RelayLedger`, `RelayDescriptors`, `RelayDrain`, `RelayReturn`,
  `RelayRequests`: what follows for every run.
- `RelayDoubleCharge`, `RelayLateAnswers`: runs that show where a promise fails.
- `RelayConn`, `RelayDispatch`, `RelayWorker`, `UserData`: the same engine as it is written, objects
  whose fields are updated in place, each handler proved to take the step of the state machine;
  `RelayWorker.RunWorker` does this for whole runs, from raw completion words on.
- `RelayConfig`: the defaults that make a configuration one the engine is proved for.

The other parts: `Bridge` (the wake protocol between Hook goroutines and the loop), `Wrap32` and `Ring`
(the submission and completion rings over wrapping counters), `OnesComplement`, `SynPacket`,
`SynRewrite`, `SynLaws`, `SynOptions`, `SynEffects` and `SynExceptions` (the packet rewrite), `PoolRuns`,
`PoolInv`, `PoolLaws` and `PoolEffects` (the research relay as a state machine, with everything posted and
not yet harvested, and what its runs keep), `ConnPool` (its recycled connections and per-listener accepts as
written), `DialGrid` (its dial targets). `Basics` holds what several of them need.

## Where the code and its documentation part

- The Stats comment (`flashrelay/flashrelay.go:138-144`) says that every accepted connection lands in
  exactly one terminal bucket. It can land in two: the idle sweep (`flashrelay/worker.go:576-581`) does
  not look at `counted`, so a rejected connection whose reply the client does not read is charged again
  as idle. `RelayDoubleCharge.IdentityCanFail` gives such a run; `RelayLedger.IdentityIffNoDoubleCharge`
  says exactly when the identity holds, and that it always does with the idle timeout off.
- Stop is said to drain and return (`flashrelay/flashrelay.go:226-228`). The worker returns when its
  map is empty (`flashrelay/worker.go:602-606`), but a connection closed as idle can leave the map with its
  request still at the Hook; the upstream the Hook dials, before the return or after, is never closed.
  `RelayReturn.NoLeak` says exactly when no descriptor is ever left open;
  `RelayLateAnswers.UndrainedAtReturn` and `DialledAfterReturn` give a run of each kind.
- The job channel has 65536 slots (`flashrelay/worker.go:146`) and MaxConns caps connections, not requests.
  `RelayRequests.RequestsBoundedIff` says that requests stay within MaxConns if and only if idle closing is
  off, and within no bound if it is on; `RelayRequests.HandOverNeverBlocksIff` says for which configurations
  handing over a request never blocks the event loop.
- Submit sets its count of entries to submit to zero whatever the kernel took (`internal/uring/uring.go:279`).
  Entries that a successful call left behind are out of every later call's reach
  (`Ring.PartIsStranded`), and post, which submits until there is room (`flashrelay/worker.go:180-188`),
  spins for ever once they fill the queue (`Ring.PostCanSpin`). `Ring.Queues.Submit` and `Ring.Queues.Post`
  say exactly when; as long as every successful call takes something the queue does not fill with them.
- The packet rewrite says TTL and IP ID change on every packet of a marked connection
  (`fingerprint/bpf/syn_rewrite.bpf.c:6-7`, `81`). It looks at the first byte before the EtherType (line 72),
  so an Ethernet frame whose destination address begins with the digit 4 is taken for a bare IP packet and is
  missed, or overwritten in the wrong place. `SynExceptions.LocatedIff` and `TtlSetIff` say exactly when;
  `SynExceptions.FramesMissed` gives two frames.
- Its comment says that whatever is not reshaped still gets its IP checksum. One way out does not write it:
  a Linux SYN whose length could not be changed (`fingerprint/bpf/syn_rewrite.bpf.c:146-147`, `187-188`).
  `SynExceptions.UnresizedHeader` says for which packets the header is right all the same,
  `UnresizedWindows`, `UnresizedMacOS` and `UnresizedIOS` what that is for each profile, and
  `UnresizedCanFail` gives a packet that leaves wrong.
- It recognises the "exact Linux layout" by five kind bytes and no length byte. `SynOptions.KindsSufficeIff`
  says when that test is enough; `SynExceptions.OddLengthIsReshaped` gives a SYN that passes it and should not.
- It updates the TCP checksum for the header, the options and the length
  (`fingerprint/bpf/syn_rewrite.bpf.c:165-170`, `209-218`). A SYN may carry data, and the change of length
  overwrites or cuts a part of it. `SynLaws.TcpChecksumKept` says
  when the checksum survives that; `SynExceptions.DataCanBreakTheChecksum` gives a SYN where it does not.

## What is assumed of the world

- A receive fills at most its buffer and a send takes at most its bytes; an operation completes once. An
  accepted descriptor, and the descriptor of a Hook's relay decision, is positive and not one that is
  open already.
- The research relay's answers are taken off its list in any order, and operations complete in any order.
- Connection ids stay below 2^56, and counters and ticks do not reach 2^64. Counters are kept per worker.
- A call of io_uring_enter takes some of the entries it is asked to take, oldest first. Completions that do not fit
  are kept back in order by a kernel with NODROP, and dropped and counted by one without. The engine is proved
  for completions that all arrive. Atomic operations are sequentially consistent.
- The kernel's checksum helpers do the ones'-complement arithmetic of RFC 1071 and section 3 of RFC 1624
  on 16-bit words, in network order here (section 2(B) of RFC 1071); a packet is linear.

## Model

| member | source | states |
|---|---|---|
| RelayWorker.RunWorker | flashrelay/worker.go:277-612 | driven by any legal run of events, the imperative worker ends in exactly the state machine's state; its map, counters and ready list agree with it |
| RelayWorker.OneStep | flashrelay/worker.go:282-611 | one event, whatever its kind, is one step of the state machine |
| RelayWorker.Worker.OnCompletion | flashrelay/worker.go:284-287 | the handler and connection selected by the word packed from an operation's id and op code are that operation's |
| RelayWorker.Worker.constructor | flashrelay/worker.go:169-178 | a new worker is in the start state: nothing mapped, counted or outstanding |
| RelayWorker.Worker.OnAccept | flashrelay/worker.go:288-305 | accept error, shedding at the cap, or a new connection under the next id with a read posted |
| RelayWorker.Worker.OnData | flashrelay/worker.go:307-552 | a data completion changes its live connection and nothing else; one for a closing or absent connection changes nothing the loop acts on |
| RelayWorker.Worker.OnEventfd | flashrelay/worker.go:322-389 | the ready list is taken whole and applied front to back |
| RelayWorker.Worker.Answer | flashrelay/worker.go:328-389 | a drained result changes its own connection; a descriptor that is not adopted is closed on the spot |
| RelayWorker.Worker.OnClosed | flashrelay/worker.go:554-569 | the last close takes the connection out of the map and charges it as completed if nothing else charged it |
| RelayWorker.Worker.SweepConns | flashrelay/worker.go:576-582 | visiting the map in any order closes exactly the live connections that are quiet for longer than the limit |
| RelayWorker.Worker.OnTimeout | flashrelay/worker.go:571-583 | the tick moves, and every tenth one sweeps if idle closing is on |
| RelayWorker.Worker.OnBatchDone | flashrelay/worker.go:602-611 | accepts are topped up to the lower of the two limits; a stopping worker returns when its map is empty |
| RelayWorker.Worker.Push | flashrelay/worker.go:109-112 | a Hook's answer goes to the end of the ready list |
| RelayWorker.TallyMoved | flashrelay/flashrelay.go:169-172 | the totals of all connections move by what the one changed connection was charged |
| RelayWorker.MappedSize | flashrelay/worker.go:295 | the size of the map is the number of mapped connections |
| RelayConn.Conn.constructor | flashrelay/worker.go:300-305 | a new connection: every field zero but descriptor, buffer and tick, one read in flight |
| RelayConn.Conn.Close | flashrelay/worker.go:189-207 | closing posts one close per descriptor and counts them |
| RelayConn.Conn.Fail | flashrelay/worker.go:217-223 | a failure is charged once, and not to a connection already charged |
| RelayConn.Conn.StartDuplex | flashrelay/worker.go:208-215 | the handshake buffers are dropped, the two relay buffers made, one read posted in each direction |
| RelayConn.Conn.GrowReq | flashrelay/worker.go:236-251 | says no at the cap; otherwise there is room for a read and what was read is kept |
| RelayConn.Conn.ForwardInit | flashrelay/worker.go:255-263 | what the Hook did not consume is sent, or the relay starts if that is nothing |
| RelayConn.Conn.OnRecvReq | flashrelay/worker.go:307-320 | the bytes land behind those read before and the whole request goes to the pool |
| RelayConn.Conn.OnReplyClient | flashrelay/worker.go:391-407 | the rest of a partly sent reply is sent; then the request is forwarded |
| RelayConn.Conn.OnReplyMore | flashrelay/worker.go:409-425 | the rest of a partly sent reply is sent; then more of the request is read |
| RelayConn.Conn.OnRejectSend | flashrelay/worker.go:427-443 | the rest of a partly sent reject is sent; then, or on failure, the connection closes uncharged |
| RelayConn.Conn.OnSendUp | flashrelay/worker.go:445-462 | the rest of a partly sent request is sent; then the relay starts |
| RelayConn.Conn.OnC2URecv | flashrelay/worker.go:464-486 | client to upstream: error, end of stream with half-close, or the bytes read become the window |
| RelayConn.Conn.OnC2USend | flashrelay/worker.go:488-506 | the rest of the window is sent; an empty one is read into again unless the client is done |
| RelayConn.Conn.OnU2CRecv | flashrelay/worker.go:508-530 | upstream to client: error, end of stream with half-close, or the bytes read become the window |
| RelayConn.Conn.OnU2CSend | flashrelay/worker.go:532-552 | the rest of the window is sent; an empty one is read into again unless the upstream is done |
| RelayConn.Conn.OnClose | flashrelay/worker.go:554-569 | one close less; at none left the connection is charged as completed if it relayed uncharged |
| RelayConn.Conn.Reject | flashrelay/worker.go:343-356 | a reject is charged at once; its reply is sent first if it has one |
| RelayConn.Conn.More | flashrelay/worker.go:357-372 | asking for more past the cap fails the connection; otherwise the reply, if any, and another read |
| RelayConn.Conn.Relay | flashrelay/worker.go:373-388 | the upstream is adopted, the consumed count clamped, the reply sent first if there is one |
| RelayConn.Conn.IdleClose | flashrelay/worker.go:577-581 | the idle charge is made whether or not the connection was charged before |
| RelayDispatch.Dispatch | flashrelay/worker.go:287-552 | the op code runs the case of the operation it was posted for |
| RelayDispatch.AlwaysFits | flashrelay/worker.go:227-263 | whatever completes on a live connection, no slice its case takes is out of range |
| UserData.RoundTrip | flashrelay/worker.go:40-41 | the op code always survives packing, the id if and only if it is below 2^56 |
| UserData.Injective | flashrelay/worker.go:40-41 | below 2^56 no two operations share a word |
| RelayConfig.Config.Defaults | flashrelay/flashrelay.go:106-134 | every field is filled, set fields are kept, and the cap on requests is at least the first read |
| RelayConfig.Config.ForWorker | flashrelay/worker.go:172-178 | the configuration the loop reads is a good one; the idle limit is off exactly when the timeout is, 1 tick for a timeout below one, and otherwise the whole ticks in it |
| RelaySteps.CompleteKeeps | flashrelay/worker.go:307-552 | any completion, at any split and in any phase, keeps the connection's invariant |
| RelaySteps.PhaseOfFlight | flashrelay/worker.go:307-552 | an operation in flight tells the phase, and is what its kind would post from the current fields |
| RelayInv.ActiveIsLasting | flashrelay/worker.go:66-89 | in every phase buffers have one user, in-flight ranges are stable and not empty, and streams are prefix-safe |
| RelayTeardown.CloseKeeps | flashrelay/worker.go:189-207 | tearing a connection down keeps what must outlast it |
| RelayTeardown.CloseDoneKeeps | flashrelay/worker.go:554-569 | a close completion keeps the invariant, and charges at most once |
| RelayTeardown.LateCompletion | flashrelay/worker.go:308-311 | a completion after closing began keeps the invariant |
| RelayDecide.DrainKeeps | flashrelay/worker.go:327-389 | a drained result keeps the invariant, for every decision and also when it comes too late |
| RelayDecide.GrowKeeps | flashrelay/worker.go:236-251 | growing keeps every byte read and stays within the cap |
| RelayDecide.SweepKeeps | flashrelay/worker.go:575-582 | the idle sweep keeps the invariant in every phase |
| RelaySafety.StepKeeps | flashrelay/worker.go:282-611 | every event keeps the worker's invariant |
| RelaySafety.Reachable | flashrelay/worker.go:277-612 | every run from the start stays in the invariant |
| RelayEffects.CompletionEffect | flashrelay/worker.go:307-552 | every completion of a live connection: a failure closes every descriptor once and is an error, unless it is a reject's reply; otherwise exactly the next operation, with its descriptor and bytes, the request to the Hook, the half-close or the end that its kind, count and bytes call for |
| RelayEffects.DecisionEffect | flashrelay/worker.go:342-388 | every drained answer: a reject is charged once and lives until its reply is sent; more goes on uncharged if and only if there is room, doubling up to the cap, and reads on after the reply; a relay is never charged, adopts the upstream, and sends the reply and then what was not consumed |
| RelayWorldEffects.AcceptEffect | flashrelay/worker.go:288-305 | one accept less is in flight; a failed one is counted, any other is a new connection whose one read offers the whole first buffer |
| RelayWorldEffects.CloseEffect | flashrelay/worker.go:554-569 | one close less; with the last the connection leaves the map, and is charged as completed if it was not charged |
| RelayWorldEffects.HookEffect | flashrelay/worker.go:109-112 | an answer goes to the end of the list and of its connection's results, and its request is gone from the pool |
| RelayWorldEffects.ListEffect | flashrelay/worker.go:322-341 | taking the list gives every connection its own answer once, and changes no other |
| RelayWorldEffects.SweepEffect | flashrelay/worker.go:575-582 | a sweep closes and charges exactly the connections quiet for longer than the limit, and leaves the others as they are |
| RelayWorldEffects.TimerEffect | flashrelay/worker.go:571-583 | the tick moves by one, and every tenth sweeps all connections if idle closing is on |
| RelayWorldEffects.BatchEffect | flashrelay/worker.go:602-611 | the end of a batch changes nothing but the return, when stopping, or the accepts in flight |
| RelayLaws.StreamFidelity | flashrelay/worker.go:373-552 | in every state what the upstream took plus what is pending is the client stream from the first unconsumed byte, and what the client took plus what is pending is all replies and then the upstream stream; both stay prefixes after teardown |
| RelayLaws.CompletedMeansDelivered | flashrelay/worker.go:554-569 | a connection charged as completed saw the end of both streams and delivered every byte; its byte counts are those delivered |
| RelayLaws.OneTokenEach | flashrelay/worker.go:189-230 | exactly one thing outstanding before the relay, one operation per open direction in it, closesLeft closes at its end; no buffer has two users |
| RelayLaws.ShutdownAfterData | flashrelay/worker.go:473-479 | at most one half-close per direction, and only once everything owed in it was taken |
| RelayShutdown.NothingAfterShutdown | flashrelay/worker.go:508-523 | once a peer was told the other is done, no run sends it another byte or tells it again |
| RelayLaws.HookSeesGrowingPrefixes | flashrelay/worker.go:312-320 | each Hook call sees a strictly longer prefix of the client stream within the cap, so there are at most MaxReqLen calls |
| RelayLaws.LateIsInert | flashrelay/worker.go:308-311 | one transition: a completion for a closing or absent connection changes no field, charge, close or Hook work |
| RelayLaws.Precedence | flashrelay/worker.go:342-388 | one transition: reject wins over more, more over a relay; only a relay adopts the descriptor, with the consumed count moved into range; the reply is owed to the client unless more is refused |
| RelayLaws.ErrorIffFailed | flashrelay/worker.go:216-223 | a live connection is charged as an error exactly when one of its operations fails, except a reject's reply; every failure ends it |
| RelayLaws.LastTickIsActivity | flashrelay/worker.go:464-552 | a completion moves lastTick if and only if it received bytes |
| RelayLaws.AppliedIsActivity | flashrelay/worker.go:342 | one transition: so does every applied Hook result |
| RelayLaws.IdleBound | flashrelay/worker.go:571-583 | with idle closing on, no live connection is quiet for longer than the limit plus the ticks since the last sweep |
| RelayLaws.SweptIffQuiet | flashrelay/worker.go:575-581 | one transition: the timer closes a connection as idle if and only if this tick sweeps and it was quiet for longer than the limit |
| RelayLedger.Conservation | flashrelay/flashrelay.go:136-144 | in every state buckets plus live connections are the accepted ones, plus those charged but open, minus those closing uncharged, plus repeated idle charges |
| RelayLedger.AtRest | flashrelay/flashrelay.go:138-144 | with an empty map every connection is charged once plus its repeated idle charge |
| RelayLedger.RunAgain | flashrelay/worker.go:575-581 | the repeated charges of a run are exactly the charged connections its sweeps found quiet |
| RelayLedger.IdentityIffNoDoubleCharge | flashrelay/flashrelay.go:138-144 | the documented identity holds at rest if and only if no sweep met a quiet connection already charged; always with the idle timeout off |
| RelayDoubleCharge.IdentityCanFail | flashrelay/worker.go:575-581 | a run after which one accepted connection is in two buckets |
| RelayDescriptors.DescriptorsBalance | flashrelay/worker.go:328-341 | the open descriptors are those of connections, undrained results and closes under way, each exactly once |
| RelayDescriptors.NoSharedDescriptors | flashrelay/worker.go:329-336 | no descriptor has two owners |
| RelayDescriptors.ClosesOnlyItsOwn | flashrelay/worker.go:196-203 | a close hits an open descriptor that no live connection uses |
| RelayDescriptors.OperatesOnItsOwn | flashrelay/worker.go:329-336 | what a live connection has in flight is on the socket of the right peer, open and its own |
| RelayDescriptors.Backpressure | flashrelay/worker.go:602-611 | map and accepts in flight never exceed MaxConns together, accepts never AcceptBatch, and nothing is shed |
| RelayDescriptors.ToppedUp | flashrelay/worker.go:607-611 | after a batch one of the two accept limits is reached exactly |
| RelayDrain.WindsDown | flashrelay/worker.go:602-606 | after Stop, with peers and Hook of finite supply, the accepts, answers, drained results and completions of a run and the connections it leaves mapped are together within a fixed bound, and no accept is added |
| RelayDrain.NeverStuck | flashrelay/worker.go:602-606 | while a connection is mapped some completion or answer of a connection is still to come |
| RelayDrain.StopEmptiesTheMap | flashrelay/worker.go:602-606 | the map is empty after a run past Stop that has made as much progress as the bound allows, and whenever nothing more can be done for a connection, accepts in flight or not |
| RelayWorldEffects.ReturnsIff | flashrelay/worker.go:602-606 | the worker returns at the end of a batch if it is stopping and its map is empty, whatever else is accepted, undrained or in flight, and at no other event |
| RelayWorldEffects.StopsIfTold | flashrelay/worker.go:602-606 | it is stopping if and only if Stop was called, and never returns if it was not |
| RelayWorldEffects.ReturnsAfterStop | flashrelay/worker.go:602-606 | a run past Stop that has made all the progress there was has returned, or returns at the end of its next batch |
| RelayReturn.LeftOpenIff | flashrelay/worker.go:328-341 | with an empty map the descriptors left open are exactly those in undrained results |
| RelayReturn.LeftForGood | flashrelay/worker.go:602-606 | what a worker that has returned leaves open stays open, whatever the Hooks and the kernel still do |
| RelayReturn.NoLeak | flashrelay/worker.go:602-606 | a worker that has returned never leaves a descriptor open, then or later, if and only if no undrained result holds one and no request is at the pool; with idle closing off always |
| RelayLateAnswers.UndrainedAtReturn | flashrelay/worker.go:602-606 | a run that returns with an upstream in an undrained result |
| RelayLateAnswers.DialledAfterReturn | flashrelay/worker.go:147-153 | a run that returns with nothing open, and an upstream dialled and left open later |
| RelayRequests.HandOverBound | flashrelay/worker.go:307-320 | at a hand-over the requests at the pool are fewer than MaxConns and the connections idle closing took while their request was there, together |
| RelayRequests.AnyNumber | flashrelay/worker.go:575-582 | with idle closing on, for any number a run with as many requests at the pool |
| RelayRequests.RequestsBoundedIff | flashrelay/worker.go:575-582 | in every run requests stay within MaxConns if and only if idle closing is off; if it is on, within no bound |
| RelayRequests.HandOverNeverBlocksIff | flashrelay/worker.go:146 | in every run a hand-over finds a slot, however slow the Hooks, if and only if idle closing is off and MaxConns is at most the slots |
| Bridge.FlagCountsWakes | flashrelay/worker.go:119-122 | in every interleaving the flag is the number of wakes outstanding, which is at most one |
| Bridge.NoLostWakeup | flashrelay/worker.go:113-118 | a result on the list has a wake on its way, a producer about to raise one, or a loop about to drain |
| Bridge.DrainedInOrder | flashrelay/worker.go:125-131 | every result is taken once, in append order |
| Bridge.AtMostOneWritePerDrain | flashrelay/worker.go:115-117 | wakes coalesce into at most one write more than there were drains |
| Bridge.EverythingIsDrained | flashrelay/worker.go:322-327 | from any reachable state the pushes begun, the loop and the kernel can take only so many steps, and when they can take none every result has been taken |
| Bridge.StuckIsDrained | flashrelay/worker.go:322-327 | with no step left the list is empty, the flag clear and the read armed |
| Bridge.Shared.Append | flashrelay/worker.go:110-112 | the append step of push |
| Bridge.Shared.Swap | flashrelay/worker.go:119 | the exchange calls for a write exactly when no wake is outstanding |
| Bridge.Shared.Write | flashrelay/worker.go:120-121 | the eventfd count goes from 0 to 1 and never further |
| Bridge.Shared.Clear | flashrelay/worker.go:324-326 | after the flag is cleared no wake is outstanding |
| Bridge.Shared.Drain | flashrelay/worker.go:125-131 | all results pushed so far have been taken |
| Wrap32.AndMask | internal/uring/uring.go:253 | masking with a power of two less one takes the remainder |
| Wrap32.SlotOf | internal/uring/uring.go:253 | masking a wrapped counter gives the place of the counter that never wraps |
| Wrap32.Distance | internal/uring/uring.go:250 | the wrapped difference of two wrapped counters is their distance |
| Wrap32.SlotsDiffer | internal/uring/uring.go:250-255 | counters less than a ring apart have different places |
| Wrap32.WindowPush | internal/uring/uring.go:253-258 | writing the next place of a ring that is not full appends to its contents |
| Wrap32.WindowDrop | internal/uring/uring.go:311-314 | moving the head drops from the front |
| Ring.Queues.GetSQE | internal/uring/uring.go:248-260 | a zeroed slot is appended that no entry the kernel has yet to take lies in; none if and only if the queue is full |
| Ring.Queues.Fill | internal/uring/uring.go:358-395 | filling the slot handed out last replaces the last entry |
| Ring.Queues.Submit | internal/uring/uring.go:264-282 | interrupted calls are repeated; on failure nothing is taken or forgotten; on success the kernel has the oldest entries, and those it did not take stay first in line but out of every later enter's reach |
| Ring.Queues.KernelComplete | internal/uring/uring.go:295-304 | a completion goes to the end of the queue; if that is full, or others wait, it is kept back or, without NODROP, dropped and counted |
| Ring.Queues.KernelFlush | internal/uring/uring.go:297-299 | completions kept back follow in order as space frees |
| Ring.Queues.NothingLost | internal/uring/uring.go:297-307 | completions given back, ready and kept back are all there were, in order, if none was dropped; with NODROP none is |
| Ring.Queues.NewlyLost | flashrelay/worker.go:592-593 | the overflow counter, which wraps, tells how many were dropped since it was last read |
| Ring.Queues.CQReady | internal/uring/uring.go:285-287 | the number of completions posted and not given back |
| Ring.Queues.PeekCQE | internal/uring/uring.go:291-293 | the i-th oldest of them |
| Ring.Queues.CQAdvance | internal/uring/uring.go:311-314 | the n oldest are given back |
| Ring.Queues.Post | flashrelay/worker.go:180-188 | posting through a full queue adds exactly this entry at the end of the stream, as soon as a submission succeeds; never, if no entry is left that an enter can reach, and that does not come about by posting |
| Ring.PartIsStranded | internal/uring/uring.go:279 | a call that takes one entry of two leaves the other with nothing to submit |
| Ring.PostCanSpin | flashrelay/worker.go:180-188 | a queue full of stranded entries, in which no number of submissions finds room |
| Ring.Queues.Harvest | flashrelay/worker.go:282-286 | a pass sees every ready completion once, in order, and gives these back, whatever number completes before each of its steps |
| OnesComplement.TwoFolds | fingerprint/bpf/syn_rewrite.bpf.c:53-54 | two folds bring any 32-bit sum below 2^16 and keep its ones'-complement value |
| OnesComplement.AcceptsIff | fingerprint/bpf/syn_rewrite.bpf.c:43-58 | a receiver accepts exactly the sums that are nonzero multiples of 65535 |
| OnesComplement.CsumDiffSame | fingerprint/bpf/syn_rewrite.bpf.c:165-166 | the difference the helper computes is the change of the sum |
| OnesComplement.ReplacedByDiffSame | fingerprint/bpf/syn_rewrite.bpf.c:168-169 | the updated field keeps field and data at the same sum; a field left to the hardware is not touched |
| OnesComplement.Replaced2Same | fingerprint/bpf/syn_rewrite.bpf.c:170 | the same for the pseudo-header, which also moves a field left to the hardware |
| OnesComplement.ComputeCsumDiff | fingerprint/bpf/syn_rewrite.bpf.c:165-166 | the loop over 32-bit words with end-around carry computes that difference |
| SynRewrite.Skb.IpCsum | fingerprint/bpf/syn_rewrite.bpf.c:44-58 | the loop writes the checksum of the other nine words |
| SynRewrite.Skb.MarkPacket | fingerprint/bpf/syn_rewrite.bpf.c:81-91 | TTL and IP ID of the profile, in place |
| SynRewrite.Skb.IsLinuxSyn | fingerprint/bpf/syn_rewrite.bpf.c:93-103 | the test for a SYN to reshape |
| SynRewrite.Layout | fingerprint/bpf/syn_rewrite.bpf.c:139-144 | the new option bytes from the old ones |
| SynRewrite.Skb.Rehead | fingerprint/bpf/syn_rewrite.bpf.c:145-162 | length, options, data offset, total length and header checksum are rewritten in place |
| SynRewrite.Skb.FixTcpCsum | fingerprint/bpf/syn_rewrite.bpf.c:163-170 | the three checksum updates in turn |
| SynRewrite.Skb.SynRewrite | fingerprint/bpf/syn_rewrite.bpf.c:61-220 | the program in place makes of every packet what the function of its bytes says |
| SynEffects.FoundIff | fingerprint/bpf/syn_rewrite.bpf.c:68-79 | a packet is found at its start, or behind an Ethernet header that names IPv4, exactly if a 20-byte IPv4 header that carries TCP stands there |
| SynEffects.ReshapedIff | fingerprint/bpf/syn_rewrite.bpf.c:93-103 | the length changes, by -8 or 4, exactly for profiles 1, 2 and 4, if 20 option bytes of the five kinds are there and SYN but not ACK is set, whatever the other flags, and the helpers allow it |
| SynEffects.UntouchedBytes | fingerprint/bpf/syn_rewrite.bpf.c:129-171 | every other byte of a reshaped SYN stays where it was |
| SynLaws.ChecksumAccepted | fingerprint/bpf/syn_rewrite.bpf.c:44-58 | for every 20-byte header the ten words sum to 0xffff after the checksum is written |
| SynLaws.HeaderAccepted | fingerprint/bpf/syn_rewrite.bpf.c:104-118 | every marked packet leaves with an accepted header, unless its length was to change and could not |
| SynLaws.ReshapedParts | fingerprint/bpf/syn_rewrite.bpf.c:129-171 | a reshaped SYN is the same link header, the new IP header, the new TCP header, the new options and what is left of the data |
| SynLaws.TcpChecksumKept | fingerprint/bpf/syn_rewrite.bpf.c:209-218 | the TCP checksum of a marked packet is right after the rewrite if and only if it was right before; for a reshaped SYN with data, a right one stays right if and only if the bytes behind the options keep their sum |
| SynLaws.OffloadKept | fingerprint/bpf/syn_rewrite.bpf.c:209-218 | a checksum left to the hardware comes out right for the new length, data or not |
| SynLaws.TotalByHeader | fingerprint/bpf/syn_rewrite.bpf.c:209-218 | what is summed is what a receiver sums by the IP total length, if that is the length of the packet |
| SynOptions.RoundTrip | fingerprint/bpf/syn_rewrite.bpf.c:133-144 | reading back options that were written gives the same options |
| SynOptions.LayoutKeepsValues | fingerprint/bpf/syn_rewrite.bpf.c:175-184 | the new bytes read as the target's layout if and only if the length bytes taken over are the usual ones, and then with the old MSS, scale and timestamps |
| SynOptions.KindsSufficeIff | fingerprint/bpf/syn_rewrite.bpf.c:96-103 | the five kind bytes prove the Linux layout if and only if the four lengths are the usual ones |
| SynOptions.ReshapedMeaning | fingerprint/bpf/syn_rewrite.bpf.c:129-144 | the same on the packet, for every profile that reshapes, with or without data |
| SynOptions.LengthsMoveTogether | fingerprint/bpf/syn_rewrite.bpf.c:200-206 | buffer, IP total length (modulo 2^16) and TCP header length move by the same amount; a right total length stays right if and only if it fits |
| SynOptions.ProfileOnEveryPacket | fingerprint/bpf/syn_rewrite.bpf.c:81-91 | TTL and ID of every marked packet that is located, on every way out; nothing but these and the checksum unless reshaped, nothing at all on other packets |
| SynExceptions.LocatedIff | fingerprint/bpf/syn_rewrite.bpf.c:72-79 | an Ethernet frame with TCP over IPv4 is found if and only if its destination address does not begin with the digit 4; otherwise it is missed or misread |
| SynExceptions.TtlSetIff | fingerprint/bpf/syn_rewrite.bpf.c:81 | so it leaves with the profile's TTL if and only if that, or it had that TTL |
| SynExceptions.FramesMissed | fingerprint/bpf/syn_rewrite.bpf.c:72-79 | two frames that leave without it |
| SynExceptions.UnresizedHeader | fingerprint/bpf/syn_rewrite.bpf.c:145-147 | a SYN whose length could not be changed leaves with a right header if and only if its new TTL and ID words have the sum of the old ones |
| SynExceptions.UnresizedWindows | fingerprint/bpf/syn_rewrite.bpf.c:145-147 | Windows: if and only if the TTL was 128 |
| SynExceptions.UnresizedMacOS | fingerprint/bpf/syn_rewrite.bpf.c:186-188 | macOS, from TTL 64: if and only if the ID was zero or 0xffff |
| SynExceptions.UnresizedIOS | fingerprint/bpf/syn_rewrite.bpf.c:186-188 | iOS, from TTL 64: if and only if the random ID is the old one modulo 65535 |
| SynExceptions.UnresizedCanFail | fingerprint/bpf/syn_rewrite.bpf.c:145-147 | a SYN whose right header leaves wrong |
| SynExceptions.OddLengthIsReshaped | fingerprint/bpf/syn_rewrite.bpf.c:96-103 | a SYN with a wrong option length that is reshaped all the same, into options that read as no target layout |
| SynExceptions.DataCanBreakTheChecksum | fingerprint/bpf/syn_rewrite.bpf.c:209-218 | a SYN with data whose right TCP checksum leaves wrong |
| PoolInv.StepKeeps | research/gate/cmd/relay-uring/main.go:424-730 | every event keeps the invariant: one thing outstanding for a connection in the map, on its own buffers, or its closes; none for any other |
| PoolLaws.Reachable | research/gate/cmd/relay-uring/main.go:389-730 | every run from the start stays in the invariant |
| PoolLaws.OneThingEach | research/gate/cmd/relay-uring/main.go:322-330 | in every run a mapped connection has exactly one operation, request or answer outstanding, or, closing, exactly the closes it counts; an id out of the map nothing, but closes of those turned away |
| PoolInv.Harvest | research/gate/cmd/relay-uring/main.go:478-499 | whatever completes was the only thing outstanding for its connection, or one of its closes |
| PoolInv.LastClose | research/gate/cmd/relay-uring/main.go:706-715 | with the last close nothing is outstanding for the connection, and its object is free |
| PoolLaws.FreeIsUnused | research/gate/cmd/relay-uring/main.go:322-330 | in every run no operation in flight uses the buffers of a free object, and no operation, request or answer is for a connection that has it |
| PoolLaws.HandedOutUnused | research/gate/cmd/relay-uring/main.go:331-340 | in every run the object a new connection gets is blank, in no use, and no operation in flight can write to its buffers |
| PoolLaws.ForwardsOwnBytes | research/gate/cmd/relay-uring/main.go:461-489 | in every run the buffer a request is sent from holds all its connection's client sent, the buffer a reply is sent from all its upstream sent |
| PoolLaws.AcceptsBounded | research/gate/cmd/relay-uring/main.go:726-730 | in every run at most a share of accepts per listener; map and accepts together within the cap, or one accept per listener if that is more; nothing shed if the cap covers the listeners |
| PoolEffects.ToppedUp | research/gate/cmd/relay-uring/main.go:726-730 | in every run, after a batch: no listener's count has fallen, and every listener has exactly its share or the map and all accepts together have reached the cap |
| PoolEffects.ItemEffect | research/gate/cmd/relay-uring/main.go:461-704 | every completion and every answer of a mapped connection: exactly the next operation, or its closes; errors and completions are counted exactly where sends and reads fail or the reply was sent |
| PoolEffects.HookEffect | research/gate/cmd/relay-uring/main.go:302-309 | a request at the pool becomes an answer on the list for the same connection |
| PoolEffects.CloseEffect | research/gate/cmd/relay-uring/main.go:706-715 | one close less; with the last the connection leaves the map and its object, blank, is the next to be handed out |
| PoolEffects.AcceptEffect | research/gate/cmd/relay-uring/main.go:431-454 | one accept less on its listener; an error, or a connection shed over the cap, or a new one under the next id with a read of the whole buffer |
| ConnPool.RunPool | research/gate/cmd/relay-uring/main.go:389-730 | driven by any run of events, the imperative worker ends in exactly the state machine's state |
| ConnPool.Worker.Complete | research/gate/cmd/relay-uring/main.go:424-730 | one event, whatever its kind, is one step of the machine |
| ConnPool.Worker.constructor | research/gate/cmd/relay-uring/main.go:389-414 | one accept on every listener, whatever the cap; the share is at least one |
| ConnPool.Worker.GetConn | research/gate/cmd/relay-uring/main.go:331-340 | the object freed last, or a new one with buffers of its own |
| ConnPool.Worker.PutConn | research/gate/cmd/relay-uring/main.go:341-348 | the connection leaves the map, and its object, all but the buffers reset, goes on the free list |
| ConnPool.Worker.CloseConn | research/gate/cmd/relay-uring/main.go:359-387 | one close per descriptor is posted and counted; without descriptors the object is freed at once |
| ConnPool.Worker.KernelWrites | research/gate/cmd/relay-uring/main.go:322-330 | a receive that completes writes its buffer, whoever has the object by then |
| ConnPool.Worker.OnAccept | research/gate/cmd/relay-uring/main.go:431-454 | the listener's count and the total fall together; then error, close over the cap, or a new connection with a read posted |
| ConnPool.Worker.OnRecvReq | research/gate/cmd/relay-uring/main.go:478-489 | after the kernel's write: absent ignored, failure closes, otherwise the request goes to the pool |
| ConnPool.Worker.OnResult | research/gate/cmd/relay-uring/main.go:461-476 | absent: the descriptor is closed; otherwise failure closes, or the upstream is adopted and the request sent |
| ConnPool.Worker.OnSendUp | research/gate/cmd/relay-uring/main.go:491-535 | absent ignored, failure closes, otherwise the reply is read |
| ConnPool.Worker.OnRecvResp | research/gate/cmd/relay-uring/main.go:680-691 | after the kernel's write: absent ignored, failure closes, otherwise the reply is sent |
| ConnPool.Worker.OnSendClient | research/gate/cmd/relay-uring/main.go:693-704 | absent ignored, otherwise counted as completed or failed, and closed |
| ConnPool.Worker.OnClose | research/gate/cmd/relay-uring/main.go:706-715 | absent ignored, otherwise a close less, and freed at none left |
| ConnPool.Worker.TopUp | research/gate/cmd/relay-uring/main.go:726-730 | each listener in turn is refilled within its share and the cap |
| ConnPool.Worker.FreeIsUnused | research/gate/cmd/relay-uring/main.go:322-330 | the arrays of a free object are used by no operation in flight |
| ConnPool.Worker.SentFromItsBuffers | research/gate/cmd/relay-uring/main.go:322-330 | what is sent on lies in the arrays of its own connection, as received |
| DialGrid.Bijection | research/gate/internal/hook/hook.go:122-140 | over as many counter values as there are cells every host and port is hit exactly once |
| DialGrid.Fair | research/gate/internal/hook/hook.go:122-140 | over any run of counter values two cells differ by at most one hit |
| DialGrid.FairDials | research/gate/internal/hook/hook.go:137-139 | the same for dials by many goroutines in any interleaving, give or take the dials under way |
| DialGrid.Config.Init | research/gate/internal/hook/hook.go:93-120 | targets in list order, the configured host if there are none, an error if an entry is not an address |
| DialGrid.TargetOf | research/gate/internal/hook/hook.go:93-120 | each entry that is a host becomes the target in its place, with its own base port or the common one |
| DialGrid.TargetCount | research/gate/internal/hook/hook.go:93-120 | there is one target for each such entry |
| DialGrid.Config.SinkTargetFor | research/gate/internal/hook/hook.go:125-140 | the counter moves by one and its new value picks the host and the offset from that host's base port; a single address leaves it alone |
| DialGrid.AddressIff | research/gate/internal/hook/hook.go:137-139 | a dial goes to a host of the list and a port of its span; with disjoint spans, to exactly the port and host its counter value stands for |
| DialGrid.EveryAddressOnce | research/gate/internal/hook/hook.go:122-140 | as many dials in a row as there are addresses reach every port of every host exactly once |
| DialGrid.FairAddresses | research/gate/internal/hook/hook.go:122-140 | over any number of dials in a row two addresses differ by at most one |
| DialGrid.FairAddressDials | research/gate/internal/hook/hook.go:137-139 | the same for dials by many goroutines in any interleaving, once none is under way |

## Left out

- RelayConn.Conn: the byte buffers of a connection are sequence-valued fields, so writing them in place and
  aliasing of slices are not captured; that no buffer has two users and that ranges in flight do not change
  is proved on their values (`RelayLaws.OneTokenEach`). In `ConnPool`, `Ring` and `SynRewrite` buffers are arrays.
- RelayReturn.NoLeak: what the kernel accepts for a worker that has returned with accepts in flight.
- RelayWorker.Worker.OnCompletion: ids at or above 2^56, where packing loses bits, are excluded. That an entry's
  word comes back in its completion is the kernel's promise; the engine and the ring are not joined in one model.
- Ring.Queues.Submit: the flag that waits for completions, and how long that wait is.
- ConnPool.Worker.OnSendUp: partial sends are not retried there, so delivery is not claimed.
- That an engine connection out of the map has no operation left with the kernel: only that late completions
  change nothing. For the research relay, where objects are recycled, that is proved (`PoolLaws.OneThingEach`).
- The listeners a server opens and the sums over workers in its statistics.
- The checks of port and Hook when a server is made; the peer address given to the Hook.
- The duplex and splice modes of the research relay, its Hook's spin and delay, and its logging.
- Parsing the text of a dial target; entries arrive parsed.
- System calls, memory mapping, thread pinning and sockets: only their results appear.
- IPv6 and fragmented buffers (non-linear packets).
- Load generators, measurement, harness scripts, fingerprint profile tables.
