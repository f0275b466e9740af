# Verified models of the OnlineJudge back end

The online judge accepts submissions, hands them to judge workers through RabbitMQ, runs them in Docker
sandboxes and reports the results. This project models the parts of it whose correctness is a property of whole
runs, byte streams or all inputs, and proves what they promise.

* **Message queue** (`MqConsumer`, `MqProtocol`, `MqSafety`, `MqGuarantees`, `MqProgress`, `MqTracking`, `MqDecisions`,
  `MqScenario`, `MqRetries`, `MqRetryBounds`, `MqRetryRuns`, `RetryPolicy`, `Publisher`). The consumer's callbacks and
  posted commands are one class whose methods are tied to step functions. Together with a broker that may lose unconfirmed copies, return, refuse, nack, close channels and
  keep processing abandoned ones, they form a step machine. Frames and events in flight may overtake one another;
  the one order kept is that a return is taken before its confirm.
* **Connection pool** (`ConnectionPool`, `PoolProtocol`). The critical sections are methods of a class; any number
  of check-outs, returns, sweeps, shutdowns and initialisations interleave between them.
* **Wire format** (`Wire`, `Utf8`, `JudgeMessages`, `JudgeCodec`). The generated size, serialize, parse and merge code
  of `SubmitStatus` and `JudgeFinishedRequest`, against the record level of the Protocol Buffers encoding.
* **Latency monitor** (`LatencyQueue`, `LogRotation`). The bounded queue with its worker, and the rename loop.
* **Sandbox output** (`MuxStream`, `Base64`). The bounded response sink, Docker's multiplexed stream, and the
  Base64 encoder of section 4 of RFC 4648.
* **Rate limiter** (`RateLimiter`), **calendar** (`Calendar`) and **TCP buffers** (`TcpState`).

Every class of the original whose fields are updated in place is a class here, and every loop is a loop with
invariants; the lemmas are about the functions that specify them. `dafny verify dfyconfig.toml` checks the
project.

## Findings

Some properties one would expect do not hold of the code as written. Each has a lemma with the failing case and one
that says exactly when the property holds.

* The policy table allows three retries, but the judge consumer goes on retrying where the table says dead-letter, and
  has runs with any number of them. The two agree exactly when the decision is not "retry" or fewer than three retries
  were made (`RetryPolicy.PracticeMeetsPolicyIff`, `MqRetryRuns.ConsumerIsUnbounded`).
* Even where the table is followed, it bounds the copies stored for a message and not the publications: a refused
  publication is made again. Publications stay within three exactly when no copy is published twice
  (`MqRetryRuns.PublicationsAreUnbounded`, `PublicationsAreBoundedIff`).
* The loop over the death headers indexes with eight bits, so it counts every array rightly exactly up to 256 entries
  (`RetryPolicy.LoopSumIsTrueIff`).
* A producer's verdict on a message id is right exactly when the id is fresh. Ids of returned messages whose channel
  died are never forgotten, and two outstanding publications under one id share one mark
  (`Publisher.VerdictIsRightIff`, `StaleIdIsReachable`, `StaleIdIsMisjudged`).
* When stop returns, the monitor's queue is empty exactly when no record was accepted during a failed start since the
  last successful one (`LatencyQueue.StopLeavesOnlyStranded`, `FailedStartStrands`).
* Sampling is exact per thousand calls except across the wrap-around of its sequence number
  (`LatencyQueue.CallsPerMilleIff`).
* Lowering the number of log files at run time can lose a batch from the middle of what is on disk. It does exactly
  when a write drops a file while an older one stays beyond the new limit (`LogRotation.DiskIsSuffixIff`,
  `ShrinkingLosesTheMiddle`).
* Eviction changes answers exactly when the clock may advance more than a window and a second between the two clock
  reads of one call (`RateLimiter.EvictionIsInvisibleIff`).
* A connection that was lost or closed can be registered with the event loop again
  (`TcpState.EndedIsQuietIff`, `CloseInCallbackIsWatched`).
* A `JudgeFinishedRequest` whose question id is not UTF-8 is serialized, and its bytes are then refused by the parser
  (`JudgeMessages.FinishedRoundTripIff`).

## Model

| member | source | states |
|---|---|---|
| MqGuarantees.NoMessageIsLost | src/comm/mq_client.hpp:305-394 | in every run, a published message the application has not acked has a confirmed copy with its body in the main, retry or dead-letter queue or unacknowledged on an open channel |
| MqGuarantees.AckNeedsCallOrConfirmedCopy | src/comm/mq_client.hpp:320-394 | in every run, an ack is written only for an Ack call or when the broker has stored a confirmed copy with the delivery's origin and body |
| MqGuarantees.SettledOnOwnChannelOnce | src/comm/mq_client.hpp:515-524 | in every run, each ack or reject names a delivery made on the channel it is written to, and no delivery is settled twice |
| MqGuarantees.BrokerKnowsEveryTag | src/comm/mq_client.hpp:422-443 | the broker never meets a delivery tag that is not outstanding, so it never closes a channel over one |
| MqGuarantees.RoutingVerdictIsCorrect | src/comm/mq_client.hpp:330-347 | in every run, a confirmed forward is judged unroutable exactly when the broker returned it, and its caller is told "routed" exactly when it was stored; ids left by dead channels never count |
| MqGuarantees.ReachableIsFine | src/comm/mq_client.hpp:302-524 | every reachable state satisfies the invariant of consumer, channels and copies |
| MqGuarantees.LatestCopyIsHeld | src/comm/mq_client.hpp:342-355 | from any confirmed copy of an unacked origin a later or equal confirmed copy is still held |
| MqProgress.AcksAndNacksTakeEffect | src/comm/mq_client.hpp:305-318 | in every run an Ack of a live delivery is written as its ack and settles that very copy; a requeueing Nack is written as its reject and puts the copy back into the queue |
| MqProgress.ForwardsTakeEffect | src/comm/mq_client.hpp:320-394 | in every run a Retry or DeadLetter of a live delivery travels as the kind of forward asked for with its body and count, a retry with the expiration nearest to the delay asked for within 1 ms to a day |
| MqProgress.ConfirmsTakeEffect | src/comm/mq_client.hpp:342-347 | in every run the confirm of a stored forward acks its original, the confirm of a returned one requeues it, and the mark of the return is gone |
| MqProgress.FailuresTakeEffect | src/comm/mq_client.hpp:348-355 | in every run a nack of a forward, or an error reported for it, requeues its original |
| MqProgress.ForwardIsPublishedOrTold | src/comm/mq_client.hpp:326-329 | a forward whose turn comes is either published or told NOT_CONNECTED, never both and never neither |
| MqProgress.PostedInOrder | src/comm/mq_client.hpp:71-94 | commands posted one by one are queued and run in order, all of them or, after the stop, none |
| MqProgress.SilentUntilReady | src/comm/mq_client.hpp:432-436 | from a channel error or a Close on nothing is written in any later run until a channel is ready |
| MqProgress.StoppedStaysStopped | src/comm/mq_client.hpp:396-407 | after the stop no later run queues a command or opens a channel |
| MqProgress.RecoversFromError | src/comm/mq_client.hpp:498-513 | after a channel error of a consumer that is not stopped the timer is set, opens a channel of the next generation, and that channel once ready is consumed from, with the queued commands kept |
| MqTracking.NothingIsForgotten | src/comm/mq_client.hpp:305-394 | in every run a delivery outstanding on the live channel is on its way to the application, with it, queued, published and unanswered, or being settled, unless its turn came while the consumer was disconnected or closing |
| MqTracking.UninterruptedForgetsNothing | src/comm/mq_client.hpp:305-394 | without a channel error or Close no delivery is ever given up, whatever the broker refuses, returns or closes |
| MqDecisions.UnreportedIsKept | src/judge_service/include/mq_consumer.hpp:39-53 | in every run by the table or as the judge consumer decides, the messages acknowledged are exactly those with an accepted report; every other still has a confirmed copy with its body |
| MqSafety.StepKeeps | src/comm/mq_client.hpp:302-524 | each of the nineteen steps of consumer, application and broker keeps the invariant |
| MqSafety.VerdictIsExact | src/comm/mq_client.hpp:342-347 | an id is missing from the returned set exactly when its publication was routed, and then its copy is confirmed |
| MqSafety.DistinctIds | src/comm/mq_client.hpp:331-333 | two publications on one channel never carry the same id |
| MqRetryRuns.RetryCanComplete | src/comm/mq_client.hpp:320-357 | there is a run that delivers, forwards, confirms and settles: the original is gone and a confirmed copy with count 1 waits |
| MqConsumer.ForwardIdInjective | src/comm/mq_client.hpp:331-333 | the printed forward id determines kind, generation, tag and count |
| MqConsumer.DrainIsHeadSteps | src/comm/mq_client.hpp:82-94 | draining the queue equals running its head once per queued command, with commands posted meanwhile left queued |
| MqConsumer.Client.DrainCommands | src/comm/mq_client.hpp:82-94 | the swap-and-run loop has the effect of all queued commands in order and tells the callers of refused forwards |
| MqConsumer.Client.PostCommand | src/comm/mq_client.hpp:71-80 | a command is queued at the end unless the loop is closing |
| MqConsumer.Client.Run | src/comm/mq_client.hpp:305-394 | a command of the live channel writes exactly its frame and registers its publication; any other does nothing, and a forward is then told NOT_CONNECTED |
| MqConsumer.Client.Confirmed | src/comm/mq_client.hpp:342-355 | a confirm acks the original if the id was not returned and requeues it otherwise, only on its own channel, and tells the caller the verdict |
| MqConsumer.Client.PublishFailed | src/comm/mq_client.hpp:348-355 | a nack or publish error requeues the original only while its channel is current and tells the caller why |
| MqConsumer.Client.ChannelFailed | src/comm/mq_client.hpp:432-436 | a channel error disconnects, tells the error handler and schedules at most one reconnect |
| MqConsumer.Client.ReconnectTimerFired | src/comm/mq_client.hpp:498-513 | the timer opens a channel of the next generation with a new publisher, or nothing while closing |
| MqConsumer.Client.ChannelReady | src/comm/mq_client.hpp:445-496 | only the current generation's channel marks the consumer connected |
| Publisher.VerdictIsRightIff | src/comm/mq_client.hpp:139-164 | whatever follows short of publishing the id again, a publication is judged rightly if and only if its id was fresh when published |
| Publisher.StaleIdIsMisjudged | src/comm/mq_client.hpp:150-160 | in every state and for every id that is not fresh there is a continuation in which the verdict is wrong |
| Publisher.StaleIdIsReachable | src/comm/mq_client.hpp:150-160 | a run from the start after which an id that may be published is not fresh |
| Publisher.DistinctIdsAreJudgedRight | src/comm/mq_client.hpp:139-164 | in a run that uses no id twice every verdict is right, over any number of reconnects |
| Publisher.LegacyIdsCollideIff | src/comm/mq_client.hpp:166-170 | two calls get the same id if and only if they are a multiple of 2^64 calls apart |
| Publisher.LegacyRunsAreJudgedRight | src/comm/mq_client.hpp:166-180 | every run that publishes under these ids only, no two calls 2^64 apart, is judged right |
| Publisher.AnswersHaveCauses | src/comm/mq_client.hpp:139-164 | in every run a verdict follows a confirm of that publication, a failure its nack or a channel error, and a publication counts as returned exactly if it was |
| Publisher.AnswersArrive | src/comm/mq_client.hpp:154-160 | a confirm, a nack or a channel error leaves no publication it answers waiting |
| Publisher.PublishedInOrder | src/comm/mq_client.hpp:143-153 | the publications of a run are those asked for while connected, in order, under their ids |
| Publisher.Client.OnAck | src/comm/mq_client.hpp:154-157 | the verdict told to the caller is the one the step machine records for the confirmed publication |
| Publisher.Client.OnReturned | src/comm/mq_client.hpp:221-224 | a returned message has the effect of the machine's return step |
| Publisher.Client.Send | src/comm/mq_client.hpp:143-153 | a posted publication is made while connected and told NOT_CONNECTED otherwise |
| RetryPolicy.ReceivedCount | src/comm/mq_client.hpp:471-494 | the retry count is the larger of the header and the saturated loop sum; for up to 256 deaths it is the true sum of the death counts unless the header is larger, and never below it short of saturation |
| RetryPolicy.LoopSumIsTrueIff | src/comm/mq_client.hpp:478-488 | the loop adds up every array of n entries with a 64-bit total rightly if and only if n is at most 256 |
| RetryPolicy.LongArrayMiscounted | src/comm/mq_client.hpp:478-488 | for every length above 256 an array whose last entry alone counts is summed to 0 |
| RetryPolicy.TrueSumOfEntry | src/comm/mq_client.hpp:478-488 | an entry adds its count wherever it stands; one that is no table or has no count adds nothing |
| RetryPolicy.TableAnswers | src/judge_service/include/report_decision.hpp:11-16 | the table acks exactly accepted reports, and dead-letters exactly rejected ones and failed ones after three retries |
| RetryPolicy.ConsumerAnswers | src/judge_service/include/mq_consumer.hpp:26-53 | the consumer acks exactly on acceptance, dead-letters exactly on rejection, and otherwise retries with the next 32-bit count after the delay asked for, at least half a minute once three retries were made |
| MqRetries.StepRuled | src/comm/mq_client.hpp:320-394 | every step in which the application follows a rule keeps what was queued, published and stored to that rule |
| MqRetryBounds.RetryCopiesCountUp | src/comm/mq_client.hpp:338-340 | in every run by the policy table a copy stored for a retry carries a count from 1 to 3 strictly above that of the copy it was made from |
| MqRetryBounds.LineageIsBounded | src/judge_service/include/report_decision.hpp:11-16 | in every run by the table a line of stored copies has at most three retries |
| MqRetryBounds.DeadLettersRest | src/comm/mq_client.hpp:359-394 | in every run a copy stored in the dead-letter queue is never delivered again |
| MqRetryBounds.OncePerCopyBounds | src/judge_service/include/report_decision.hpp:11-16 | if no copy was published for a retry twice, a message has at most three retry publications |
| MqRetryRuns.PublicationsAreUnbounded | src/comm/mq_client.hpp:348-354 | under refusals a message is published for a retry any number of times although the table is followed |
| MqRetryRuns.PublicationsAreBoundedIff | src/comm/mq_client.hpp:320-357 | three publications suffice in all runs that publish no copy more often than a limit if and only if that limit is at most one |
| MqRetryRuns.ConsumerIsUnbounded | src/judge_service/include/mq_consumer.hpp:26-37 | for every n the judge consumer has a run that stores a line of n retries |
| RetryPolicy.PolicyBoundsRetries | src/judge_service/include/report_decision.hpp:11-16 | a chain of received counts, linked as the copies of a line are, has at most three hops retried by the table |
| RetryPolicy.PracticeMeetsPolicyIff | src/judge_service/include/mq_consumer.hpp:26-53 | the consumer does what the table says if and only if the decision is not retry or the count is below three |
| RetryPolicy.PracticeIsUnbounded | src/judge_service/include/mq_consumer.hpp:26-37 | for every n there is a chain of received counts the consumer retries n times |
| RetryPolicy.PracticeIsPolicyIffNeverExhausted | src/judge_service/include/mq_consumer.hpp:26-53 | a chain of the consumer is one the table allows if and only if no retried hop had exhausted its retries |
| PoolProtocol.PoolAccounting | src/comm/odb/connection_pool.hpp:75-184 | in every run the active count is handed-out connections plus calls under way, no step wraps it, and with the idle ones it stays within the maximum |
| PoolProtocol.EpochsNeverMix | src/comm/odb/connection_pool.hpp:81-111 | every connection anywhere was created by the latest initialisation, and none takes effect while one is left |
| PoolProtocol.CallsKeepTheirEpoch | src/comm/odb/connection_pool.hpp:113-168 | nor does one take effect while a check-out is under way, which ends in the epoch of its reservation |
| PoolProtocol.NoSharing | src/comm/odb/connection_pool.hpp:113-168 | no connection is ever in two places |
| PoolProtocol.ReturnedAfterStopIsGone | src/comm/odb/connection_pool.hpp:170-213 | a connection returned after shutdown began is nowhere in any later state of any run |
| PoolProtocol.SweepInEveryRun | src/comm/odb/connection_pool.hpp:282-302 | in every reachable state the sweep equals its closed form: past the minimum it evicts exactly the entries idle for at least the timeout |
| PoolProtocol.InitializeTakesEffectIff | src/comm/odb/connection_pool.hpp:75-111 | in every run starting takes effect if and only if the pool is stopped with nothing outstanding and the limits are valid; then it holds the connections created, in order |
| PoolProtocol.WaitsOnlyWhenAllTaken | src/comm/odb/connection_pool.hpp:113-131 | in every run a caller waits if and only if the pool runs and as many connections as allowed are taken |
| PoolProtocol.GetOpensACall | src/comm/odb/connection_pool.hpp:113-168 | in every run a caller on a running pool gets the connection idle longest, to be checked, or else creates one; on a stopped pool nothing |
| PoolProtocol.ChecksAndCreations | src/comm/odb/connection_pool.hpp:133-168 | a live connection goes on to be handed out, a dead one is replaced while the pool runs, a failed creation gives its slot back, and a new connection is unlike every other |
| PoolProtocol.FinishHandsOut | src/comm/odb/connection_pool.hpp:263-271 | in every run a checked connection of a running pool goes to its caller; on a stopped one it is nowhere afterwards |
| PoolProtocol.ReturnPools | src/comm/odb/connection_pool.hpp:170-184 | in every run a handle returned to a running pool becomes its youngest idle connection, stamped with the time |
| PoolProtocol.MoveMoves | src/comm/odb/connection_pool.hpp:318-361 | moving an owner moves its connection and leaves the old owner without one |
| PoolProtocol.ShutdownEmpties | src/comm/odb/connection_pool.hpp:198-213 | shutting down stops the pool at once, and what was idle is nowhere afterwards |
| PoolProtocol.StepKeeps | src/comm/odb/connection_pool.hpp:75-302 | every critical section keeps count, bound, epoch, exclusivity and queue order |
| ConnectionPool.SweepClosedForm | src/comm/odb/connection_pool.hpp:291-300 | on an ordered queue the sweep keeps the first min(n, minimum) entries and the unexpired suffix of the rest, evicting only expired ones |
| ConnectionPool.Pool.HealthSweep | src/comm/odb/connection_pool.hpp:282-302 | the rebuilding loop computes the sweep |
| ConnectionPool.Pool.Initialize | src/comm/odb/connection_pool.hpp:75-111 | each refusal leaves the pool unchanged; otherwise it is filled, or emptied again if the thread does not start |
| ConnectionPool.Pool.TakeReservation | src/comm/odb/connection_pool.hpp:113-168 | a call reserves a slot for an idle or a new connection, oldest idle first, or is refused |
| ConnectionPool.Pool.Finish | src/comm/odb/connection_pool.hpp:263-271 | a checked connection is handed out while running and its reservation given back otherwise |
| ConnectionPool.Pool.Release | src/comm/odb/connection_pool.hpp:273-280 | a failed check-out gives its reservation back once |
| ConnectionPool.Pool.Return | src/comm/odb/connection_pool.hpp:170-184 | a handle is pooled with the time of return only while running |
| Wire.ReadAllOfPrint | src/comm/proto/judge_service.pb.cc:1071-1137 | reading undoes printing for every sequence of valid records |
| Wire.ReadOfBase128 | src/comm/proto/judge_service.pb.cc:815-867 | reading a varint undoes writing it, within the reader's byte limit |
| Wire.Base128IsShortest | src/comm/proto/judge_service.pb.cc:869-900 | writing yields a varint of the number, and the shortest one |
| Wire.ReadBase128Iff | src/comm/proto/judge_service.pb.cc:815-867 | the reader yields a number if and only if the input starts with a varint of it within the byte limit, shortest or not |
| Wire.ReadRecordIff | src/comm/proto/judge_service.pb.cc:815-867 | the reader yields a record if and only if the input starts with a tag of a field from 1 on and the payload its wire type announces |
| Wire.RecordSizeIsLength | src/comm/proto/judge_service.pb.cc:1183-1216 | the computed size of a record is its printed length |
| JudgeMessages.StatusRoundTrip | src/comm/proto/judge_service.pb.cc:815-900 | parsing undoes serializing for every status, unknown fields included |
| JudgeMessages.StatusConcatIsMerge | src/comm/proto/judge_service.pb.cc:936-954 | parsing two serialized statuses one after the other is merging the second into the first |
| JudgeMessages.StatusHoldsTheLast | src/comm/proto/judge_service.pb.cc:815-867 | for any records in any order each field holds the last value given for it, and all other records are kept in order |
| JudgeMessages.FinishedRoundTripIff | src/comm/proto/judge_service.pb.cc:1071-1181 | parsing undoes serializing if and only if the question id is the UTF-8 encoding of some code points, and refuses the bytes otherwise |
| Utf8.ValidIffEncoded | src/comm/proto/judge_service.pb.cc:1085-1091 | a byte string passes the check if and only if it is the encoding of a sequence of code points without surrogates |
| JudgeMessages.FinishedHoldsTheLast | src/comm/proto/judge_service.pb.cc:1071-1137 | any records are accepted if and only if every question id is UTF-8 and every nested message well formed; the result holds the last values, all nested messages in order, and the rest as unknown |
| JudgeMessages.FinishedConcatIsMerge | src/comm/proto/judge_service.pb.cc:1225-1244 | parsing two serialized requests one after the other is merging the second into the first |
| JudgeMessages.FoldOwnFinished | src/comm/proto/judge_service.pb.cc:1071-1137 | parsing a message's records into any message merges it in, or fails on an invalid string |
| JudgeMessages.Int32RoundTrip | src/comm/proto/judge_service.pb.cc:869-900 | a negative int32 survives its ten-byte sign-extended form |
| JudgeCodec.StatusByteSize | src/comm/proto/judge_service.pb.cc:902-927 | the accumulated size is the serialized length |
| JudgeCodec.SerializeStatus | src/comm/proto/judge_service.pb.cc:869-900 | the target is extended by the status's bytes |
| JudgeCodec.StatusLayout | src/comm/proto/judge_service.pb.cc:869-900 | the bytes are the non-zero fields under tag bytes 8, 16 and 24, as 64-bit two's complement varints, then the unknown ones |
| JudgeCodec.ParseStatusLoop | src/comm/proto/judge_service.pb.cc:815-867 | the parse loop accepts and yields what the records say |
| JudgeCodec.FinishedMessage.ByteSizeLong | src/comm/proto/judge_service.pb.cc:1183-1216 | the size is the serialized length, and every nested message is left with its own size cached |
| JudgeCodec.RightCachesPrintTheMessage | src/comm/proto/judge_service.pb.cc:1139-1181 | with right cached sizes the serializer, which trusts them, writes the message |
| JudgeCodec.FinishedLayout | src/comm/proto/judge_service.pb.cc:1139-1181 | the bytes are the non-default fields under tag bytes 8, 18 and 24, the nested messages under 34, then the unknown ones |
| JudgeCodec.FinishedMessage.Serialize | src/comm/proto/judge_service.pb.cc:1139-1181 | the target is extended by the fields in order with the cached length prefixes |
| JudgeCodec.FinishedMessage.SerializeToBytes | src/comm/proto/judge_service.pb.cc:1139-1216 | sizing and then serializing yields the message's bytes |
| JudgeCodec.FinishedMessage.Parse | src/comm/proto/judge_service.pb.cc:1071-1137 | the parse loop with its inner loop over repeated fields merges the records into the message, or fails |
| JudgeCodec.FinishedMessage.MergeFrom | src/comm/proto/judge_service.pb.cc:1225-1244 | non-default fields overwrite, nested messages and unknown fields are appended |
| LatencyQueue.RecordsAreConserved | src/comm/latecymonitor.hpp:94-118 | in every run the written records, the batch in hand and the queue are the accepted records, in order, each once |
| LatencyQueue.StopLeavesOnlyStranded | src/comm/latecymonitor.hpp:199-210 | when stop returns exactly the records accepted during failed starts since the last successful one are unwritten, so the queue is empty if and only if there was none |
| LatencyQueue.FailedStartStrands | src/comm/latecymonitor.hpp:180-197 | a failed start can leave a record queued when stop returns |
| LatencyQueue.StepKeeps | src/comm/latecymonitor.hpp:94-256 | each step of recorders, worker, start, stop and reconfiguration keeps the conservation invariant |
| LatencyQueue.RecordIsTakenIff | src/comm/latecymonitor.hpp:242-256 | a record is queued if and only if the monitor is enabled, running and has room, and counted as dropped if and only if only the room is missing |
| LatencyQueue.OfferedAreCounted | src/comm/latecymonitor.hpp:242-256 | in every run each record offered to a running monitor is accepted or counted as dropped |
| LatencyQueue.QueueStaysBounded | src/comm/latecymonitor.hpp:242-256 | in every run the queue stays within the largest limit that was in force |
| LatencyQueue.WorkerTakesOldest | src/comm/latecymonitor.hpp:94-118 | the worker takes the oldest records, a batch or all there are, and ends if and only if there are none and the monitor was stopped |
| LatencyQueue.StopDrains | src/comm/latecymonitor.hpp:199-210 | after a stop as many turns as there are batches write the whole queue and end the worker |
| LatencyQueue.StopRefusesRecords | src/comm/latecymonitor.hpp:199-210 | after a stop no later run accepts a record until the monitor is enabled again |
| LatencyQueue.FirstOnesAreSampled | src/comm/latecymonitor.hpp:260-265 | of every thousand sequence numbers exactly the first ones, as many as the rate, are sampled |
| LatencyQueue.CallsPerMilleIff | src/comm/latecymonitor.hpp:260-265 | a thousand consecutive calls sample exactly the rate wherever the 64-bit sequence stands if and only if the rate is 0 or 1000, and for every rate while the sequence does not wrap |
| LatencyQueue.SamplesPerMille | src/comm/latecymonitor.hpp:260-265 | any 1000 consecutive sequence numbers sample exactly as many calls as the rate says |
| LatencyQueue.LatencyMonitor.TakeBatch | src/comm/latecymonitor.hpp:94-118 | the popping loop takes the oldest records up to a batch, and the worker ends only when stopped with an empty queue |
| LatencyQueue.LatencyMonitor.RecordLatency | src/comm/latecymonitor.hpp:242-256 | a record is queued or counted as dropped |
| LatencyQueue.LatencyMonitor.ShouldSample | src/comm/latecymonitor.hpp:260-265 | the sequence number decides, and advances only for rates strictly between 0 and 1000 |
| LogRotation.RotationKeepsSuffix | src/comm/latecymonitor.hpp:133-157 | while the number of files never shrinks, reading oldest to newest gives a suffix of all output, and no file lies beyond the limit |
| LogRotation.FilesStayBounded | src/comm/latecymonitor.hpp:133-157 | every file is within the byte limit or holds a single batch |
| LogRotation.WriteKeepsSuffixIff | src/comm/latecymonitor.hpp:133-157 | a write keeps all files on disk a suffix of the output if and only if it does not drop a file while an older one beyond the limit stays |
| LogRotation.DiskIsSuffixIff | src/comm/latecymonitor.hpp:133-157 | for distinct batches the disk is a suffix after every write of a trace if and only if no write of it does that |
| LogRotation.GrowingNeverLoses | src/comm/latecymonitor.hpp:133-157 | a number of files that never shrinks never does that |
| LogRotation.WriteIs | src/comm/latecymonitor.hpp:133-157 | a batch that fits is appended to the live file; one that does not starts a new one, the others move up by one and the oldest within the limit is dropped |
| LogRotation.ShrinkingLosesTheMiddle | src/comm/latecymonitor.hpp:133-157 | a trace from the empty directory that lowers the number of files and loses a batch from the middle |
| LogRotation.Logs.Rotate | src/comm/latecymonitor.hpp:133-150 | the rename loop is a shift by one that drops the last file |
| LogRotation.Logs.WriteBatch | src/comm/latecymonitor.hpp:120-164 | rotation happens only when the batch would exceed the limit, then the batch is appended |
| MuxStream.ParseOfPrinted | src/judge_service/include/docker_sandbox.hpp:96-110 | parsing gives back the frames sent, whatever the reserved bytes, and leaves out an unfinished tail |
| MuxStream.EveryStreamDecomposes | src/judge_service/include/docker_sandbox.hpp:96-110 | every byte string is a run of printed packets and an unfinished tail, and the parser returns exactly those |
| MuxStream.ParseOfPrefix | src/judge_service/include/docker_sandbox.hpp:96-110 | the frames of a prefix are a prefix of the frames |
| MuxStream.TruncationKeepsWholeFrames | src/judge_service/include/docker_sandbox.hpp:59-110 | of a stream cut after n bytes exactly the frames that end within them are read |
| MuxStream.HeaderLayout | src/judge_service/include/docker_sandbox.hpp:96-110 | the first byte is the stream, the fifth to eighth the big-endian size, and the payload follows |
| MuxStream.OutputTakesOwnFrames | src/judge_service/include/docker_sandbox.hpp:341-346 | a frame's payload stands at its place in its own stream's output and in no other's |
| MuxStream.ParseMuxStream | src/judge_service/include/docker_sandbox.hpp:96-110 | the position loop computes the parse |
| MuxStream.ReadSize | src/judge_service/include/docker_sandbox.hpp:101-103 | the shifting loop reads the big-endian size |
| MuxStream.SplitStreams | src/judge_service/include/docker_sandbox.hpp:341-346 | stdout and stderr are the payloads of streams 1 and 2 in order |
| MuxStream.CurlOutput.Write | src/judge_service/include/docker_sandbox.hpp:59-71 | a chunk that fits is taken whole, one that does not fills the buffer to the limit and is refused |
| MuxStream.CurlOutput.Transfer | src/judge_service/include/docker_sandbox.hpp:53-71 | for any chunking the sink holds the first min(limit, total) bytes and the flag says whether there were more |
| MuxStream.ExecOutput | src/judge_service/include/docker_sandbox.hpp:328-346 | for packets cut into any chunks, stdout and stderr are prefixes of the payloads of streams 1 and 2, and all of them below the limit |
| Base64.Base64Encode | src/judge_service/include/docker_sandbox.hpp:74-87 | the output is the standard encoding, of a length divisible by four, and decodes to the input, for every byte string |
| Base64.RoundTrip | src/judge_service/include/docker_sandbox.hpp:74-87 | decoding undoes the standard encoding |
| Base64.PushLowBits | src/judge_service/include/docker_sandbox.hpp:80 | 32-bit wrap-around never reaches the bits still to be pushed |
| Base64.TableIsRight | src/judge_service/include/docker_sandbox.hpp:75-76 | the table is the alphabet of RFC 4648 |
| Base64.KnownEncodings | src/judge_service/include/docker_sandbox.hpp:74-87 | the reference encoding gives the vectors of section 10 of RFC 4648 for "f", "fo" and "foo", and reaches the last two characters |
| RateLimiter.RateIsBounded | src/gateway/src/rate_limiter.cpp:12-46 | on every trace a key is admitted at most (k + 1) times the limit in any half-open span of k windows |
| RateLimiter.RefusalMeansUsedUp | src/gateway/src/rate_limiter.cpp:12-46 | on every prompt trace a call is refused only if its key was admitted at least the limit's number of times within the window's length ending with it |
| RateLimiter.EvictionIsInvisible | src/gateway/src/rate_limiter.cpp:18-46 | on every prompt trace each call is answered as by a limiter that never evicts |
| RateLimiter.EvictionIsInvisibleIff | src/gateway/src/rate_limiter.cpp:12-46 | a bound on the delay between the two clock reads makes eviction invisible on every trace if and only if it is at most a window and a second |
| RateLimiter.LateCleanupAdmitsTooMuch | src/gateway/src/rate_limiter.cpp:36-46 | beyond that delay a trace from the empty limiter has a call admitted that should be refused |
| RateLimiter.OldBucketsGo | src/gateway/src/rate_limiter.cpp:18-46 | a call over five minutes after the last clean-up leaves no bucket older than two windows and a second, and no call changes another key's bucket otherwise |
| RateLimiter.Gate.CleanupExpired | src/gateway/src/rate_limiter.cpp:36-46 | the erasing loop, in any order, removes exactly the evictable buckets |
| RateLimiter.Gate.Ask | src/gateway/src/rate_limiter.cpp:12-34 | one call: periodic clean-up, window roll-over, count and answer |
| Calendar.CountRoundTrip | src/comm/comm.hpp:239-284 | for every 64-bit count of microseconds, there and back gives the count if it is not negative and 0 otherwise |
| Calendar.DateTimeRoundTrip | src/comm/comm.hpp:239-284 | a date-time comes back unchanged if and only if it exists and is from 1970 on; every other one becomes 0 |
| Calendar.TimegmOfGmtime | src/comm/comm.hpp:252-276 | walking the calendar and the closed day formula are inverse, and the walk only yields existing dates |
| Calendar.GmtimeOfTimegm | src/comm/comm.hpp:252-276 | the walk finds every existing date from 1970 on from its second count |
| Calendar.SplitRoundsDown | src/comm/comm.hpp:265-270 | the adjusted truncating division rounds down, for negative counts too |
| Calendar.CountsAreDistinct | src/comm/comm.hpp:239-261 | two existing date-times with the same count are the same |
| Calendar.DayNumberIsCivil | src/comm/comm.hpp:252-276 | the day number is that of the Gregorian calendar, computed by eras of 400 years |
| Calendar.CountIsCivil | src/comm/comm.hpp:239-261 | the count of an existing date is its place in the Gregorian calendar, to the microsecond |
| TcpState.BytesAreConserved | src/comm/amqp_tcp_impl.cpp:43-87 | in every run sent plus buffered bytes are those given, consumed plus buffered bytes are those received, unsent output on a live connection has write interest, and loss is reported at most once |
| TcpState.StreamsAreWhole | src/comm/amqp_tcp_impl.cpp:43-87 | in every run, of all bytes given the socket took a prefix and the rest is buffered; of all bytes that arrived the parser consumed a prefix and the rest is buffered |
| TcpState.StreamsGrow | src/comm/amqp_tcp_impl.cpp:43-200 | each step adds to the streams exactly what was given, arrived, was sent and was consumed in it |
| TcpState.LossIsNoticedIff | src/comm/amqp_tcp_impl.cpp:43-87 | a connection is marked lost by exactly a failed send, a failed receive or the end of the stream |
| TcpState.DestructionIs | src/comm/amqp_tcp_impl.cpp:43-87 | a connection is destroyed exactly by its user or inside the receive callback, and leaves no interest registered |
| TcpState.OutputDrains | src/comm/amqp_tcp_impl.cpp:43-73 | however small the parts, enough writable events send everything given and then drop write interest |
| TcpState.EndedIsQuietIff | src/comm/amqp_tcp_impl.cpp:43-87 | throughout a run a lost or closed connection has no interest registered if and only if no event or output after its end, no close inside the receive callback and no last output while the loss is reported registers it again |
| TcpState.CloseInCallbackIsWatched | src/comm/amqp_tcp_impl.cpp:60-71 | a run in which a connection closed from inside the receive callback ends watched |
| TcpState.StepKeeps | src/comm/amqp_tcp_impl.cpp:43-249 | every event, callback and call keeps conservation, interest and single report |
| TcpState.TcpConnection.Process | src/comm/amqp_tcp_impl.cpp:43-73 | partial sends and receives, calls made from the receive callback, loss and destruction inside it |
| TcpState.TcpConnection.MarkLost | src/comm/amqp_tcp_impl.cpp:81-87 | the first loss withdraws interest and is reported; later ones do nothing |
| TcpState.TcpConnection.OnData | src/comm/amqp_tcp_impl.cpp:189-200 | output is buffered at the end and write interest registered |
| TcpState.TcpConnection.Close | src/comm/amqp_tcp_impl.cpp:170-179 | closing withdraws interest and detaches |

## Left out

- Real sockets, libevent, curl, brpc, Docker and the database: their results are inputs of the steps.
- Nack with requeue false: it drops a message on purpose, so it is no step of the no-loss machine.
- Memory exhaustion and exceptions out of standard containers.
- JudgeCodec.ParseStatusLoop: start-group tags in unknown fields are treated as malformed by the record reader; the original keeps such groups.
- Arena, swap, descriptor and reflection code of the generated messages, and the messages of common.pb.cc, which have the same shape with more fields.
- JudgeCodec.FinishedMessage.Parse: start-group tags are refused as in JudgeCodec.ParseStatusLoop; nested messages are owned as values beside a list of their cached sizes, so sharing of nested objects is not captured.
- Calendar.DateTimeRoundTrip: leaves out years between 2^31 and 2^31 + 1900 and counts beyond 64 bits, where the C++ arithmetic is undefined.
- The loop of gmtime_r itself is not modelled: it is given by walking the Gregorian calendar.
- LogRotation.RotationKeepsSuffix: file errors and files left by an earlier process are not modelled.
- TcpState.TcpConnection.Process: the socket never takes more bytes than it was offered, and callbacks do not process events of the same socket.
- The retry levels of the queue topology, JSON, JWT, logging, routing and configuration code: they would only add easy members.
- Container life cycle of the sandbox, the outbox store and the judge's inbox scripts.
