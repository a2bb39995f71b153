# A verified model of gorums

gorums lets a process call a configuration of nodes and combine their replies. This project models
five parts of it in Dafny and proves what they promise:

- **Stream channels** (`Requests`, `Numbers`, `PendingTable`, `PendingCalls`, `Channel*`, `Dispatcher`,
  `MessageIds`). One outbound channel is a transition system with one action per lock region,
  channel operation or atomic operation of its goroutines: the callers of `Enqueue`, the run loop
  with its send loop, and for each session the receiving goroutine, the GOAWAY watcher (section 6.8
  of RFC 9113), the expiry callbacks and the calls of `endIfDrained`, and `Close`. Results of gRPC
  calls, timers and ready `select` cases are choices of the action; a context is a flag that goes
  from live to ended. One inductive invariant (`ChannelTheorems.Inv`) carries a map from every
  request to its place; the theorems about all runs follow from it. `ChannelState` holds the state,
  `ChannelSteps` the actions, `ChannelPlaces`, `ChannelSessions`, `ChannelAnswers`, `ChannelClose`
  and `ChannelInvariant` the parts of the invariant, `ChannelTheorems` the results, and
  `ChannelRefusals` the exact condition under which a refused stream's call returns to the queue.
- **Tree topology** (`TreeShape`, `TreeConfig`). The queries on 64-bit integers against the index
  rule of a complete b-ary tree: the parent of p is (p-1)/b and its children start at b*p+1.
- **Histograms** (`HistogramLayout`, `HistogramLog`, `Histograms`, `HistogramMerge`, `HdrStores`).
  A histogram is specified by the log of weighted values it recorded; every field, snapshot and
  quantile is a function of that log.
- **Quorum calls and membership** (`Quorums`, `QuorumIntersection`, `FanOut`, `QuorumCalls`,
  `Correctables`, `SortedIds`, `Membership`, `MembershipRuns`).
- **Measurement accumulators** (`Moments`, `LatencySeries`, `Intervals`), over exact reals.

`dafny verify dfyconfig.toml` checks the project.

## What a caller has to provide

- Requests on one channel carry distinct message IDs (`EnqueueStep` asks for it): the source draws
  them from one counter. A two-way request does not wait for room in the queue. The send buffer
  holds at least one request, as the dial options see to (dial_options.go:81-91).
- That a refusal decides about every pending call needs failing sends on the refused stream to
  return `io.EOF`. Without this it fails, and `ChannelRefusals.CallCanReturnIff` says exactly when.
- Client message counters stay below 2^63.
- `NewHistogram` gets `1 <= lowest`, `2*lowest <= highest` and `1 <= sigfigs <= 5`, or it panics.
  Beyond that its doubling loop needs `highest` below 2^62 and the first bucket's range below 2^63,
  which the code does not check (`Histograms.LoopEndsExactly`).
- A quorum call's configuration has distinct nodes, and an in-process handler answers a unary call
  at most once.
- The ticker's clock does not go back.

## Model

| member | source | states |
|---|---|---|
| ChannelTheorems.RunInv | internal/stream/session.go:86-345 | the invariant holds in every state of every run of an outbound channel |
| ChannelTheorems.OnePlace | internal/stream/session.go:283-345 | in every reachable state each request ever enqueued is in exactly one place (queue, a push in progress, the run loop's hand, one session's table, a disposing goroutine, or settled), and nothing else is anywhere |
| ChannelTheorems.AnsweredAtMostOnce | internal/stream/session.go:86-268 | a non-streaming request is answered at most once; an answered one has left the channel; one with a response channel leaves unanswered only after its context ended |
| ChannelTheorems.SettledForGood | internal/stream/outbound.go:119-166 | between any two states of a run, settled requests stay settled and delivered responses stay delivered |
| ChannelTheorems.VerdictClosedOnce | internal/stream/session.go:205-233 | `verdict` is closed at most once, exactly once when receiving is over, and a stream is never both accepted and refused |
| ChannelTheorems.RefusalSetBeforeVerdict | internal/stream/session.go:217-233 | after `verdict` is closed the refusal never changes, so no reader sees it before it is written |
| ChannelTheorems.RefusedCallsFail | internal/stream/session.go:159-345 | on a refused stream every call that returns to the queue, or fails with another error than the refusal, is one that a broken send drained; when receiving is over every other call sent on the stream has failed with the refusal or its context ended |
| ChannelTheorems.OnlyBrokenSendsRequeue | internal/stream/session.go:159-183 | on a refused stream calls were drained early only by a send that broke with an error other than `io.EOF`; only non-streaming ones of them returned to the queue, and none if the error was ResourceExhausted |
| ChannelRefusals.CallCanReturnIff | internal/stream/session.go:159-183 | from every reachable state at a failed send, with the stream undecided, a call pending on it and room in the queue: a continuation exists in which the stream is refused and the call returns to the queue if and only if the error is neither `io.EOF` nor ResourceExhausted and the call is not streaming |
| ChannelRefusals.BrokenSendCanReturnCall | internal/stream/session.go:332-345 | that continuation, for every such state, error, call and refusal: the call is in the queue and the stream refused |
| ChannelRefusals.OnlyThen | internal/stream/session.go:332-345 | no continuation of any other failed send returns the call |
| ChannelCounterexample.BrokenSendReturnsCallToQueue | internal/stream/session.go:159-183 | a run from the start that reaches such a failed send and ends with the refused stream's call back in the queue |
| ChannelTheorems.DrainEndsEmpty | internal/stream/session.go:349-369 | the drain path ends a session only with its send loop stopped and its table empty, so it never fails or resends a call |
| ChannelTheorems.DrainedHasEnded | internal/stream/session.go:358-369 | with no `endIfDrained` outstanding, draining, stopped and empty implies ended |
| ChannelTheorems.ClosedForGood | internal/stream/outbound.go:107-133 | once `Close` has returned, then and in every later state the queue and all tables are empty, and every request not still in a failing `Enqueue` was answered, had its context end, or wanted no response |
| PendingCalls.Calls.Add | internal/stream/pending.go:37-57 | adds to the table, sweeping first when it is full, and refuses on a drained table |
| PendingCalls.Calls.SweepLocked | internal/stream/pending.go:126-133 | removes exactly the calls whose contexts ended, and doubles the survivors for the next threshold |
| PendingCalls.Calls.Drain | internal/stream/pending.go:72-82 | gives every pending call once and closes the table |
| PendingCalls.Calls.WatchExpiry | internal/stream/pending.go:94-105 | marks the table and every call in it as watched |
| PendingCalls.Calls.Expire | internal/stream/pending.go:108-122 | removes a call only if it is still the same registration |
| PendingCalls.SizeAndSweepCost | internal/stream/pending.go:37-57 | after any run of operations the table holds at most max(64, twice the survivors of its last sweep) calls, and all sweeps looked at no more than two calls per add |
| Dispatcher.StartsInAdmitOrder | internal/stream/dispatch.go:54-116 | in every state: admitted = started, at most one in hand, queued, discarded; at most one started handler is unreleased; each source's requests start in the order it sent them |
| Dispatcher.SlotsNeverBlock | internal/stream/dispatch.go:31-116 | the queue never exceeds its size, tokens cover every receive from `slots`, and each start leads to exactly one take |
| MessageIds.FramesAreTakenAsMeant | internal/stream/session.go:241-268 | on one stream, in every run, with IDs in any order, calls resent from earlier streams and replies that come late: a frame is taken as a request exactly by the side it is a request for, and oppositely by the other; a reply matches only the call it answers; the acceptance frame answers no call |
| MessageIds.RepliesReachTheirCalls | internal/stream/session.go:251-268 | in every run each reply that was matched to a pending call answers that call |
| MessageIds.MaskTest | internal/stream/message.go:90-92 | the mask test is the comparison with 2^63 that the model uses |
| MessageIds.MaskSet | internal/stream/message.go:84-86 | setting the high bit is the addition that the model uses |
| TreeConfig.TreeLevelStart | tree.go:102-120 | the exact geometric sum, or -1 exactly if it exceeds the greatest int |
| TreeConfig.TreePow | tree.go:123-129 | the power, without overflow wherever a tree needs it |
| TreeConfig.NewTree | tree.go:60-86 | accepts exactly the shapes whose capacity fits an int and holds the nodes, with no node twice; the tree keeps the order of the configuration |
| TreeConfig.NewStar | tree.go:93-95 | accepts every non-empty configuration of distinct nodes, and makes every other node a child of the root |
| TreeConfig.PosLevel | tree.go:133-144 | the level counted in edges to the root, and the index in it; no arithmetic overflows |
| TreeConfig.ParentOf | tree.go:148-159 | the node at (p-1)/b, none for the root and unknown nodes; no arithmetic overflows |
| TreeConfig.ChildrenOf | tree.go:163-179 | the nodes from b*p+1 to b*p+b that exist, none for unknown nodes; no arithmetic overflows |
| TreeConfig.ChildrenInvertParent | tree.go:148-179 | c is a child of p exactly if p is the parent of c |
| TreeConfig.Subtree | tree.go:184-215 | exactly the nodes whose chain of parents reaches the node, in ascending position and so each once; no arithmetic overflows |
| TreeConfig.LevelOf | tree.go:231-238 | the number of parent steps to the root, -1 for unknown nodes |
| TreeConfig.Height | tree.go:243-260 | the greatest level difference over the subtree, reached by some node of it; -1 for unknown nodes |
| TreeConfig.HeightStaysInRangeIff | tree.go:253 | the position that Height computes stays within an int on every node of a tree exactly if b*(n-1)+1 is an int; otherwise it wraps on the last level, which the level test keeps harmless |
| TreeConfig.HeightCanWrap | tree.go:253 | a shape and a node for which it wraps |
| TreeShape.ParentIsQuotient | tree.go:157 | the recursive parent is (p-1)/b |
| TreeShape.FirstChildIsProduct | tree.go:173 | the recursive first child is b*p+1 |
| TreeShape.ParentArithmetic | tree.go:157 | the level arithmetic of the source gives the parent, one level up |
| TreeShape.ChildArithmetic | tree.go:173 | the level arithmetic of the source gives the first child, within the next level |
| TreeShape.Stretch | tree.go:198-208 | the descendants j levels below p are exactly one stretch of positions |
| TreeConfig.RelayFromRootReachesEachNodeOnce | tree.go:163-179 | a message that the root passes to each of its ChildrenOf, and they to theirs, reaches every node exactly once |
| TreeShape.RelayReachesEachNodeOnce | tree.go:163-179 | the same on positions |
| HistogramLayout.PairIsSlot | benchkit/hdr.go:93-96 | every (bucket, sub-bucket) pair has a slot inside the array, from which the pair is recovered |
| HistogramLayout.SlotIsPair | benchkit/hdr.go:93-101 | every slot of the array is the slot of a pair |
| HistogramLayout.SlotsAdjoin | benchkit/hdr.go:93-106 | each slot ends where the next starts, so slots partition the values in ascending order |
| HistogramLayout.RecordSlot | benchkit/hdr.go:79-96 | every trackable value's bucket and sub-bucket give an existing slot whose range holds the value |
| HistogramLayout.BucketIndexIs | benchkit/hdr.go:79-82 | or-ing the mask makes the bucket max(0, bits above the first bucket) |
| Histograms.CountBuckets | benchkit/hdr.go:65-73 | the doubling loop ends, stays within int64, and gives the number of buckets in closed form |
| Histograms.LoopEndsExactly | benchkit/hdr.go:71-73 | on wrapping int64 the doubling loop ends exactly if highest is below 2^62 and the first bucket's range fits an int64 |
| Histograms.Histogram.constructor | benchkit/hdr.go:40-76 | an empty histogram with a layout that covers [0, highest] and resolves the digits |
| Histograms.Histogram.RecordValueN | benchkit/hdr.go:120-133 | appends to the log what is in range, reports the rest, and keeps counts, total, minimum and maximum equal to what the log gives |
| Histograms.Histogram.RecordPairs | benchkit/hdr.go:142-146 | appends every pair, shifted by delta in int64 and clamped |
| Histograms.Histogram.Buckets | benchkit/hdr.go:183-202 | every occupied slot once, ascending, as its median and its exact count |
| Histograms.Histogram.Snapshot | benchkit/hdr.go:151-162 | the listing, or none if nothing was recorded |
| Histograms.Histogram.ValueAtRank | benchkit/hdr.go:208-228 | for the rank-th smallest recorded x: the top of x's slot, at least x, above it by less than x/10^sigfigs or less than one unit in the first bucket |
| HistogramLog.RankExists | benchkit/hdr.go:208-228 | every rank up to the total has such an x, and it was recorded |
| HistogramLog.SnapshotKeepsTotal | benchkit/hdr.go:151-162 | a snapshot holds as many samples as were recorded |
| HistogramMerge.MergeHistograms | benchkit/store.go:159-167 | the snapshot of a canonical histogram that recorded the pairs of all inputs |
| HistogramMerge.MergeEqualsRecordingAll | benchkit/store.go:159-167 | merging the snapshots of any canonical histograms equals the snapshot of one histogram that recorded everything, clamped top bucket included |
| HistogramMerge.RequantizingIsAFixedPoint | benchkit/hdr.go:142-162 | re-quantizing a snapshot gives the same snapshot |
| HistogramMerge.OffsetHistogram | benchkit/store.go:144-151 | the re-quantized shifted values; no count is lost |
| HistogramMerge.CanonicalLayout | benchkit/store.go:52-64 | the canonical parameters are accepted and give 26 buckets of 2048 sub-buckets |
| HdrStores.HdrStore.Add | benchkit/store.go:86-92 | records the sample by sign with its magnitude clamped |
| HdrStores.HdrStore.Count | benchkit/store.go:94 | all samples are counted exactly if none is the least int64, whose magnitude wraps and is dropped |
| HdrStores.HdrStore.Buckets | benchkit/store.go:104-123 | the negative listing mirrored, then the other, in strictly ascending order |
| HdrStores.HdrStore.Snapshot | benchkit/store.go:127-138 | the listing, or none if no sample was counted |
| HdrStores.MergeOfStores | benchkit/store.go:159-167 | merging what any number of stores of non-negative samples report equals what one store reports that recorded all the samples |
| HdrStores.NonNegativeListing | benchkit/store.go:104-123 | a store without negative samples lists what its first histogram recorded |
| Quorums.Threshold | internal/impl/responses.go:152-180 | succeeds exactly if threshold replies arrive, with the first reply; otherwise reports all node errors in order, skips left out |
| Quorums.First | internal/impl/responses.go:127-129 | the first reply if any; otherwise all node errors, or the error of an unsent call |
| Quorums.Majority | internal/impl/responses.go:133-136 | succeeds exactly if more replies than half the number of nodes arrive; otherwise all node errors, or the error of an unsent call |
| Quorums.All | internal/impl/responses.go:140-145 | succeeds exactly if as many replies as nodes arrive; otherwise all node errors, or the error of an unsent call |
| Quorums.NodeTally.Add | internal/impl/terminals.go:29-42 | counts a node's first reply only, and keeps errors other than skips |
| Quorums.Reduce | internal/impl/terminals.go:97-124 | the fold over the first n of the nodes' first replies, stopped by an error of add; otherwise incomplete with all node errors |
| Quorums.Matching | internal/impl/terminals.go:145-174 | agrees exactly if some key is shared by n nodes' first replies; gives the first key to get there, with its n replies in arrival order |
| QuorumIntersection.FirstsAreFirstReplies | internal/impl/terminals.go:29-42 | what Reduce and Matching see is exactly each replying node's first reply, in arrival order |
| QuorumIntersection.ReductionsMeet | internal/impl/terminals.go:97-124 | two reductions over more than half of the nodes share a node that replied to both, streaming or not |
| QuorumIntersection.AgreementsMeet | internal/impl/terminals.go:145-174 | two agreements of more than half of the nodes share a node among their responses |
| QuorumIntersection.MajoritiesMeet | internal/impl/responses.go:133-136 | two majorities of distinct nodes share a node that replied to both |
| QuorumIntersection.StreamingMajoritiesMeetIff | internal/impl/responses.go:152-180 | streaming majorities of distinct configured nodes always share a replying node exactly if there is at most one node, since Threshold counts a node once per reply |
| QuorumIntersection.MeetsEveryStreamingMajorityIff | internal/impl/responses.go:152-180 | a call meets every streaming majority exactly if every node replied to it |
| QuorumIntersection.MeetsEveryMajorityIff | internal/impl/responses.go:133-136 | a call meets every majority of distinct nodes exactly if at least half of the nodes replied to it |
| FanOut.SendShared | internal/impl/call_context.go:187-212 | every node is asked once and nobody else; ordinary nodes share one client ID, each shared node gets a server ID that no other ask carries; an unmarshalable request is reported for every node |
| FanOut.SendPerNode | internal/impl/call_context.go:216-245 | every node is asked once and nobody else, in order; skipped and unsendable requests are reported |
| FanOut.RotationVisitsEachOnce | internal/impl/call_context.go:200-202 | the rotation visits every position exactly once |
| FanOut.SharedIdsDiffer | internal/impl/call_context.go:203-206 | a later shared node draws a later number |
| QuorumCalls.OneResponsePerNode | internal/impl/call_context.go:249-265 | for a fan-out that asks each node once, with each enqueued request answered by a run of the channel model: every node gives at most one response to a non-streaming call, only configured nodes do, and all responses fit a channel of one place per node |
| QuorumCalls.SuccessfulMajoritiesShareANode | internal/impl/responses.go:133-136 | two successful non-streaming majority calls of such fan-outs over one configuration have a node that replied to both |
| Correctables.Correctable.Update | internal/impl/correctable.go:114-136 | the new result, with exactly the watchers it reaches closed |
| Correctables.WatchersAndCompletion | internal/impl/correctable.go:61-136 | in every run each watcher's channel is closed at most once, and closed exactly if its level was reached or the call completed; completion happens once, without error exactly if the replies reached the threshold |
| Correctables.LevelGrows | internal/impl/correctable.go:61-136 | the level never decreases, and a completed call keeps its outcome |
| Correctables.StepKeeps | internal/impl/correctable.go:73-136 | every enabled step keeps the invariant, by which the goroutine never updates a completed call |
| Membership.InboundManager.RebuildConfig | internal/conn/inbound_manager.go:421-457 | the inbound and client views are recomputed, strictly sorted, and the broadcast channel is replaced |
| Membership.InboundManager.NextAvailableClientID | internal/conn/inbound_manager.go:398-412 | the least free ID from the last one on, or exhaustion exactly if there is none |
| Membership.InboundManager.AcceptClient | internal/conn/inbound_manager.go:371-394 | a new client with that ID, in the rebuilt view |
| MembershipRuns.ViewsAreCurrent | internal/conn/inbound_manager.go:421-457 | in every state of every run each view is the one strictly ID-sorted sequence of the nodes it should hold |
| MembershipRuns.ActiveIsLatestLive | internal/conn/node.go:237-260 | a peer's active channel is exactly the most recently attached one that was not detached since |
| MembershipRuns.ClientIdIsFree | internal/conn/inbound_manager.go:398-412 | every client ID given is in the client range, no known peer's and no present client's |
| MembershipRuns.ClientIdsAreNew | internal/conn/inbound_manager.go:398-412 | client IDs are given in ascending order, so never reused |
| MembershipRuns.DisconnectUndoesConnect | internal/conn/inbound_manager.go:341-365 | a peer's connect followed by its disconnect restores every node and both views |
| MembershipRuns.LeaveUndoesArrive | internal/conn/inbound_manager.go:371-394 | a client that arrives and leaves is forgotten, except that its ID is not given again |
| MembershipRuns.BlockedWaitersAreCurrent | internal/conn/inbound_manager.go:462-487 | a waiter on an unclosed broadcast channel last tested its condition on lists of exactly the nodes now connected |
| Moments.AddIsBatch | benchkit/latency_series.go:18-23 | Welford's update equals the batch mean and squared-deviation sum |
| Moments.MergeIsConcatenation | benchkit/latency_series.go:25-38 | merging equals the moments of the concatenated samples |
| Moments.MergeInAnyGrouping | benchkit/latency_series.go:25-38 | merging in any grouping gives the moments of all the samples |
| Moments.ShiftIsCorrection | benchkit/latency_series.go:93-97 | shifting only the mean equals correcting every sample |
| LatencySeries.Series.Add | benchkit/latency_series.go:67-84 | a sample before the start is dropped; any other joins the interval that its offset lies in, and each interval and sender keeps the batch moments of its samples |
| LatencySeries.Series.CorrectedInterval | benchkit/latency_series.go:92-98 | merging the shifted sender moments gives the moments of the individually corrected samples in arrival order |
| LatencySeries.Series.Corrected | benchkit/latency_series.go:86-102 | one event per occupied interval in time order, with those moments |
| LatencySeries.EventRoundTrip | benchkit/latency_series.go:47-54 | an event gives back the moments it was made from |
| LatencySeries.MergeLatencyEvents | benchkit/latency_series.go:107-126 | one event per offset with samples, ascending, with the merged moments |
| LatencySeries.MergedReports | benchkit/latency_series.go:107-126 | merging the servers' events gives the moments of all their samples of the interval |
| Intervals.OpsAreConserved | benchkit/ticker.go:81-119 | in every interleaving of samples, bare ops and ticks the emitted ops, the interval being emitted and the open one add up to the samples recorded and the ops counted without one |
| Intervals.Summarize | benchkit/summary.go:51-101 | throughput and squared coefficient of variation over the kept intervals, their validity flags, and the samples after the ops of the dropped intervals |
| Intervals.CutIsExact | benchkit/summary.go:62-92 | in every client-measured run the cut removes exactly the samples recorded in the dropped intervals |

## Left out

- gRPC, TLS, metadata, protobuf messages and generated code: `Send`, `Recv`, `Header` and connection state are nondeterministic outcomes.
- Peer verification and credentials: calls into certificate and URL libraries.
- Wall-clock time: timers fire at any moment; latency averages, back-off durations and stall reports are not modelled.
- `LastErr`, `StreamUp`, `PendingCount`, dropped-reply and unmatched-error counters: they do not influence where requests go.
- The in-process `LocalChannel` and `InboundChannel` wrappers: their dispatcher and session are modelled, their plumbing is not.
- The peer configuration of `InboundManager` (`SetPeerConfig`, `onStreamChange`, the connected-peer view and its callback): it follows the outbound channels' stream state, which is not modelled.
- Nodes of `InboundManager` are values in its maps, so aliasing of one node by several configurations is not captured.
- What request transforms, interceptors, `Aggregate` and response unmarshalling compute: easy members around the response sequence, which is a parameter here.
- Counters of type uint64 (histogram counts, op counts, sample counts) are unbounded: no run reaches their range.
- Bit operations of the histogram are written as arithmetic on naturals, and its logarithms are exact instead of `float64`.
- Histograms.Histogram.ValueAtRank: takes the integer rank as a parameter, because computing it from a quantile is float rounding.
- Square roots: an interval event carries the variance instead of the standard deviation.
- Intervals.Summarize: gives the square of the coefficient of variation, because of the square root, and leaves out the histogram that is passed through.
- LatencySeries.Series.Add: takes the offset from the start as a parameter, because it is read from the clock, and is unbounded.
- `Watch` on configurations, dial and server options, configuration set operations, the code generator, sweeps, reports and the command-line tools: plumbing, presentation and input/output.
