# A verified model of the RocketMQ client

This project models the parts of the multi-language RocketMQ client in which messages, offsets, permits and
requests can be lost, repeated or miscounted, and proves for all inputs and all runs what the client promises
about them. The Python port is the code that is followed line by line; the other ports state the same rules
in their documentation. `dafny verify dfyconfig.toml` checks everything.

| file | part of the client |
|---|---|
| `Messages.dfy` | queues, messages, per-queue views of a shared buffer |
| `LiteQueueCache.dfy`, `LiteCaches.dfy`, `LiteSpec.dfy`, `LitePullConsumer.dfy` | the lite-pull consumer as a class: three offset tables, one buffer, the per-queue accumulators and the four cache gates |
| `LiteSteps.dfy`, `LiteRuns.dfy`, `LiteFailures.dfy`, `LiteOverlaps.dfy`, `LiteOrder.dfy` | runs of one of its queues, access by access: what they keep, the exact guard, what happens without it, the order of the offsets |
| `LiteShared.dfy`, `LiteOperations.dfy`, `LiteBacklog.dfy`, `LiteFairness.dfy`, `LiteSchedule.dfy` | runs over any number of queues, the operations as such runs, that every backlog gets through the gates, and that every fair schedule delivers it |
| `LiteGate.dfy` | how much a queue comes to cache, alone and in the whole consumer |
| `PushSpec.dfy`, `PushQueue.dfy`, `PushRuns.dfy`, `PushOverlaps.dfy`, `PushDurable.dfy`, `PushGates.dfy` | the push consumer: dispatch, partial acknowledgement, expiry sweep, revoke and rebuild as lock sections, the exact guard, the stored offset, and the cache gates with divided budgets |
| `HeartbeatV2.dfy`, `RebalanceSettlement.dfy` | the fingerprint protocol of heartbeat V2, and what a rebalance round owes after queues moved |
| `FairSemaphore.dfy`, `AsyncSend.dfy` | asynchronous back-pressure: two fair semaphores with rollback and resize |
| `InFlightTable.dfy` | requests in flight, racing with answers, expiry and dying connections |
| `BatchAck.dfy`, `MessageCodec.dfy`, `PropertyText.dfy`, `AclContent.dfy` | the POP batch-acknowledgement body, the 17-segment frame, the property text, the signed content |
| `Allocation.dfy`, `HashRing.dfy` | dividing queues among the instances of a group |
| `ClassMap.dfy`, `CauseChain.dfy` | the PHP class-map scan, the walk along exception causes |

How the concurrent parts are modelled. A step is one section of code under a lock, or one access to a shared
table where there is no lock; a run is any sequence of such steps in any order the code allows. Time, the
network and user code are parameters of the steps: whether a request got through, what the listener answered,
whether a budget is used up. A class beside each machine carries the loops of the code and is proved to compute
the functions of the machine. The lite-pull tables are plain dictionaries, so there the test of an answer, the
write of the pull cursor and the enqueueing are three steps, the taking of rows and the move of the consumed
cursor of a poll three, a seek four, and giving a queue up or taking it over one for each table: an assignment,
a rebalance and the end of a subscription give a queue up in three different orders.

Where a promise does not hold in every run, the runs it does hold in are described by a guard on the steps, and
the guard is proved exact: from every state such runs reach, a step the guard forbids is followed by a run of
allowed steps that breaks the promise (`LiteFailures.CleanIffAllStaysFine`, `PushOverlaps.ApartIffPromised`).

What is assumed. A broker answers a pull with rows of ascending offsets at or past the requested one and a
next offset not below it; it corrects a lite-pull offset backwards only when that is a start offset from which
nothing was served and for which nobody is polling or seeking. A queue of the lite-pull consumer is polled,
sought, committed and read by one thread of each kind at a time; a rebalance runs on the pull thread, assignments
and ends of subscriptions on one thread of the application, and no second thread gives a queue up while one still
does. Where schedules are said to be fair, a buffer with rows is polled again, a queue that stays admitted gets
another answer, and the rows of an answer are enqueued, each at some time. Where a bound is said to be reached,
matching messages keep coming. The heartbeat hash is injective on rule sets and never 0. The message authentication
code and the ring hash are arbitrary functions. Request numbers are not reused while a request is in flight.

## What is not so

Properties the documentation suggests and the code does not have in every run; each has a concrete run or input
and the exact condition under which the property does hold.

- Lite pull: a seek that leaves a row at or past its target cached or on its way delivers it twice
  (`LiteOverlaps.SeekDeliversTwiceIff`, `LiteOverlaps.SeekBackDeliversTwice`). A seek between the test of an
  answer and the write of the pull cursor is overwritten (`LiteOverlaps.AnswerOverwritesTheSeek`), one between
  the two halves of a poll leaves the consumed cursor past the pull cursor
  (`LiteOverlaps.PollOvertakesTheSeek`). A queue given up while somebody is about to write for it leaves cursors
  or rows behind (`LiteFailures.ReleaseIsFinalIff`, `LiteOverlaps.RowsOutliveTheRelease`,
  `LiteOverlaps.StartOutlivesTheUnsubscription`), and a start offset written late takes the pull cursor back
  (`LiteOverlaps.LateStartPullsAgain`). A rebalance that takes a queue over while its subscription is ending can lose
  rows (`LiteOverlaps.TakeOverLosesIff`). The round counter of a queue drifts when rows leave out of order
  (`LiteQueueCache.RemovalKeepsAccounts`, `LiteOverlaps.RoundsDrift`). When each of these accesses is harmless:
  `LiteFailures.CleanIffAllStaysFine`. The cache gate never refuses a queue that is not held, so a queue can come to
  cache more than the count limit and one answer (`LiteGate.CleanBoundIsReached`, `LiteGate.BoundIsReached`); exactly
  when: `LiteGate.AskOverrunsIff`, `LiteGate.SeeingAllKeepsTheLimit`.
- Push: an acknowledge index below -1 makes the slice of the tail count from the end and loses messages
  (`PushQueue.TailTakesTheUnacknowledgedIff`; with index -2 the first of two messages is neither acknowledged nor
  redelivered, `PushQueue.IndexBelowMinusOneLosesMessages`). The sweep and the dispatch thread can lay hands on the same
  message, so that it goes back to the broker twice, or goes back and is also acknowledged or still consumed
  (`PushOverlaps.TakeOverlaps`, `PushOverlaps.RegisterOverlaps`, `PushOverlaps.ReturnOverlaps`,
  `PushOverlaps.PickOverlaps`). A batch can be registered after its queue was revoked
  (`PushOverlaps.StaleRegisterHappens`). Failed send-backs are put into whatever buffer the queue has, so after
  a rebuild the offset can pass messages nobody consumed (`PushOverlaps.StaleRequeueSkipsHeldMessages`) and the
  sweep can return one message again and again (`PushOverlaps.SweepRepeatsItself`, `PushQueue.RoundRepeatsItself`,
  `PushQueue.HeadLeavesIff`). When each of these steps is harmless: `PushOverlaps.ApartIffPromised`. The sweep
  does not ask for the message model, so a broadcasting consumer can send messages back
  (`PushOverlaps.PassSendsIff`, `PushOverlaps.BroadcastSends`). A batch that
  was taken and not yet registered is invisible to the cache gate (`PushGates.HiddenBatchSlipsPastTheGate`), so a
  queue can come to hold more than its quota plus one answer; exactly when: `PushGates.GateOverrunsIff`. A pull let
  through before a division comes in after it (`PushGates.LatePullComesInAnyway`). The offset of a revoked buffer
  is stored after the revoke; if the queue has by then been rebuilt at a lower start offset, it passes rows nobody
  pulled (`PushDurable.LateOffsetPassesTheRestart`); exactly when: `PushDurable.StartLosesNothingIff`.
- Asynchronous sends: the flag that makes a callback give its permits back once is read and set without a
  lock (`AsyncSend.GivesBackOnceIff`). A refusal at the byte gate, on the other hand, does give the slot back
  (`AsyncSend.ByteRefusalRestoresTheSlot`).
- Heartbeat V2: a broker that stores the fingerprint of light rounds can confirm rules it does not hold
  (`HeartbeatV2.LossyGroupIsMisledIff` and `HeartbeatV2.LosslessGroupIsMisledIff` while subscriptions are fixed,
  `HeartbeatV2.ChangingGroupIsMisledIff` when they change: then even a lone instance that changes its rules and
  back and loses both answers is misled); the repository does not say which broker does. A periodic beat between
  the fingerprint reset and the restamp keeps the new versions from that broker
  (`RebalanceSettlement.BrokerHoldsTheNewVersionsIff`).
- Frames: a message that carries a size larger than it takes breaks the stream behind it
  (`MessageCodec.StreamReadsBackIff`). Properties: empty names and values disappear, a value may hold \x01
  (`PropertyText.PropertiesReadBackIff`).
- Allocation: a repeated or empty client id loses its share (`Allocation.AveragelyCoversIff`,
  `Allocation.CircleCoversIff`, `Allocation.RepeatedIdLosesQueues`, `Allocation.EmptyIdLosesQueues`); a ring
  without replicas, or a place of an empty id, gives the queue to nobody (`HashRing.EveryQueueHasOneOwnerIff`).
- Class map: an anonymous class that extends a class registers its parent's name
  (`ClassMap.AnonymousClassWithAParent`), and a class constant written with a blank after the colons the next plain
  name (`ClassMap.SpacedClassConstant`); exactly when the map is right: `ClassMap.MapIsRightIff`.

Where documentation and code differ, the code is followed: `README.en.md:38` and `cpp/README.en.md:276-294`
count held messages by queue offset, `python/client/consumer.py:3582-3594` by object identity (within one
buffer the two agree, `PushGates.CountingOffsetsIsTheSame`); the comment at
`python/remoting/client.py:958-961` gives the expiry rule with "<=", the code expires strictly later.

## Model

| member | source | states |
|---|---|---|
| `LiteQueueCache.QueueCache.Add` | python/client/consumer.py:5064-5074 | a cached row goes to the end of the offset list and its body length into the byte total; minimum and maximum stay those of the list |
| `LiteQueueCache.QueueCache.Remove` | python/client/consumer.py:5076-5102 | removing a row takes its first occurrence out, charges the oldest round and keeps the recomputation invariant; the pending rounds stay those of the cached rows exactly when the row was of the round it was charged to |
| `LiteQueueCache.RoundKeepsAccounts` | python/client/consumer.py:5059-5062 | rows added and then recorded as one round leave every pending round counted, with as many rows as the cache holds of it |
| `LiteQueueCache.RemovalKeepsAccounts` | python/client/consumer.py:5076-5102 | after a removal the pending rounds are still those of the cached rows exactly when the row was of the oldest round, or the rounds up to its own hold one row each |
| `LiteQueueCache.GroupsFollowOffsets` | python/client/consumer.py:5076-5102 | keeping the rows grouped by round and removing from the group gives the same offsets as removing from the flat list |
| `LiteQueueCache.HeadsAreChargedRight` | python/client/consumer.py:5076-5102 | through any number of removals in order the counters stay the sizes of the rounds |
| `LiteQueueCache.PruneIsPrefixIffSorted` | python/client/consumer.py:6354-6389 | a seek prunes a prefix for every target exactly when the cached offsets are in order |
| `LiteCaches.AppendKeeps` | python/client/consumer.py:6144-6192 | enqueueing rows of any queues keeps count, bytes, bounds and rounds of every queue what recomputation from the buffer gives |
| `LiteCaches.TakeKeeps` | python/client/consumer.py:6162-6171 | so does taking the oldest row |
| `LiteCaches.SeekPruneKeeps` | python/client/consumer.py:6354-6389 | so does the prune of a seek, row by row, whatever order the rows are in |
| `LiteCaches.EmptyBufferHasNoRounds` | python/client/consumer.py:5076-5102 | an empty buffer leaves no round of any queue pending |
| `LitePullConsumer.Consumer.Enqueue` | python/client/consumer.py:6144-6192 | rows are appended to the shared buffer and every per-queue accumulator still equals its recomputation from the buffer |
| `LitePullConsumer.Consumer.TakeFromBuffer` | python/client/consumer.py:6162-6171 | the oldest row leaves the buffer, the accumulators follow |
| `LitePullConsumer.Consumer.Drain` | python/client/consumer.py:6321-6352 | the first half of a poll: the first 1024 rows at most leave the buffer, no cursor moves |
| `LitePullConsumer.Consumer.MoveCursors` | python/client/consumer.py:6321-6352 | the second half: the consumed cursors of the queues still known move past exactly those rows |
| `LitePullConsumer.Consumer.Poll` | python/client/consumer.py:6321-6352 | both halves with nobody in between; it refuses a negative timeout and a stopped consumer without changing anything |
| `LitePullConsumer.Consumer.Seek` | python/client/consumer.py:6354-6389 | a seek sets both cursors, pins the target and drops the rows below it; out of range, not held or not running it changes nothing |
| `LitePullConsumer.Consumer.PruneOutdated` | python/client/consumer.py:6354-6389 | the last part of a seek: exactly the rows of the queue below the target go, the accumulators follow |
| `LitePullConsumer.Consumer.DropQueueCache` | python/client/consumer.py:6173-6187 | exactly the rows, rounds and pause flag of the one queue go |
| `LitePullConsumer.Consumer.Assign` | python/client/consumer.py:5625-5648 | queues no longer named are revoked with everything but their commit slot, new ones start at their resolved offset, an empty list is refused |
| `LitePullConsumer.Consumer.Unsubscribe` | python/client/consumer.py:5549-5570 | the held queues of the topic leave at once with everything but their commit slots, nothing is sent; a blank topic changes nothing |
| `LitePullConsumer.Consumer.Rebalance` | python/client/consumer.py:6264-6318 | released queues have their slot sent to the broker, then lose cursors, rows and slot; an unchanged set changes nothing |
| `LitePullConsumer.Consumer.Commit` | python/client/consumer.py:6475-6522 | the in-memory table and the broker after a commit of everything, of a map or of a list of queues, with and without persisting, which the three lemmas LiteSpec.Commit...Stores give slot by slot; neither cursor moves |
| `LitePullConsumer.Consumer.PersistTable` | python/client/consumer.py:6453-6473 | sends the named slots that can be reached and sweeps the others; naming nobody does nothing |
| `LitePullConsumer.Consumer.Committed` | python/client/consumer.py:6411-6432 | answers from the table, on a miss reads the broker and fills the table, and refuses when the consumer is stopped |
| `LitePullConsumer.Consumer.FollowAnswer` | python/client/consumer.py:5945-6012 | an answer moves the pull cursor only while the cursor is what the request was sent with |
| `LitePullConsumer.Consumer.PendingRounds` | python/client/consumer.py:6032-6135 | the aggregate is the sum of the rounds of all queues |
| `LitePullConsumer.Consumer.Figures` | python/client/consumer.py:6032-6135 | count, bytes and span the gates read are those recomputed from the queue’s rows |
| `LitePullConsumer.Consumer.CacheFlowControlHit` | python/client/consumer.py:6032-6135 | the verdict is that of the first gate strictly over its limit, as LiteSpec.VerdictIff spells it out; exactly one trip counter moves on a refusal, nothing else changes |
| `LitePullConsumer.Consumer.DrainedConsumerAdmitsIff` | cpp/README.en.md:386-403 | once everything is polled no round is pending and the gate of a held queue is open exactly when no limit is negative |
| `LiteSpec.RebalanceMeansPerQueue` | python/client/consumer.py:6264-6318 | per queue, what a rebalance keeps, drops and tells the broker; an unchanged set is a stutter |
| `LiteSpec.AdvancedMeaning` | python/client/consumer.py:6321-6352 | the consumed cursor of a held queue becomes one past the highest offset handed out, and only those cursors move |
| `LiteSpec.CommitListStores` | python/client/consumer.py:6475-6522 | a commit of a list of queues stores the consumed cursors of those among them that are held; a persisting one that names somebody forgets every queue it does not name; the broker hears exactly the stored slots of queues it can be reached for, and only when persisting (CommitAllStores: the same for everything held; CommitAtStores: for named offsets, of which -1 stores nothing) |
| `LiteSpec.VerdictIff` | python/client/consumer.py:6032-6135 | each verdict if and only if its gate is the first that is over: pending rounds times batch size, rows of the queue, their bytes past the last whole mebibyte allowed, two rows further apart than the span; admitted if and only if none is or the queue is not held |
| `LiteSpec.AssignLeaves` | python/client/consumer.py:5625-5648 | per queue, table by table, what an assignment leaves: the named ones held at their pull cursor or start offset, of the others it held only the slot, everything else as it was |
| `LiteSpec.UnsubscribeLeaves` | python/client/consumer.py:5549-5570 | the same for the end of a subscription: exactly the held queues of that very topic are left with nothing but their slot |
| `LiteSpec.RebalanceLeaves` | python/client/consumer.py:6264-6318 | the same for a rebalance, after which a released queue has not even its slot |
| `LiteSpec.SeekLeaves` | python/client/consumer.py:6354-6389 | a seek sets both cursors and the pin of its own queue, keeps of its rows exactly those at or past the target, in order, and leaves every other queue as it was |
| `LiteSpec.SeekCharges` | python/client/consumer.py:6354-6389 | the rows a seek drops are charged to the rounds of its queue alone; where no row is left no round is |
| `LiteSpec.PollLeaves` | python/client/consumer.py:6321-6352 | a poll hands out the oldest 1024 rows at most, in order; the consumed cursor of a queue with a pull cursor moves one past the highest of its rows, its rounds are charged for them, and nothing else of any queue changes |
| `LiteSpec.AppendLeaves` | python/client/consumer.py:6144-6192 | rows that arrive go behind those of their queue and are one round more of that many rows |
| `LiteRuns.StepKeeps` | python/client/consumer.py:5945-6012 | every clean access of every thread to the tables of a queue keeps the invariant |
| `LiteRuns.EveryRunDeliversExactlyOnce` | python/verify_lite_pull_live.py:289-335 | after any interleaving of clean accesses of pulling, polling, seeking, committing and assigning threads and crashes: what was handed out is the replay in order without a gap, what is delivered, cached and on its way is exactly the matching offsets up to the pull cursor, each once, and the consumed cursor is one past the last row handed out |
| `LiteRuns.CrashNeverSkips` | python/verify_lite_pull_live.py:289-335 | a crash and restart at the broker’s offset skips no message that was neither delivered nor jumped over on request |
| `LiteFailures.CleanIffAllStaysFine` | python/client/consumer.py:5945-6012 | the guard of those runs is exact: from any state they reach, an access of any thread is clean if and only if the queue is as promised after every clean continuation |
| `LiteFailures.SeekIsCleanIff` | python/client/consumer.py:6354-6389 | a seek while no answer is being written is clean exactly when no cached or arriving row lies at or past the target and no poll under way writes another cursor |
| `LiteFailures.ReleaseIsFinalIff` | python/client/consumer.py:6173-6187 | a released queue stays without cursors and rows, whatever the threads do until it is taken over again, exactly when none of them was about to write one |
| `LiteOverlaps.SeekDeliversTwiceIff` | python/client/consumer.py:6354-6389 | after a seek of a held queue some continuation hands out an offset twice exactly when a cached or arriving row at or past the target stays and the pull thread is about to overwrite the pull cursor neither by an answer nor by a start offset |
| `LiteOverlaps.SeekBackDeliversTwice` | python/client/consumer.py:6354-6389 | a run from a fresh consumer that delivers offset 0 twice |
| `LiteOverlaps.AnswerOverwritesTheSeek` | python/client/consumer.py:5945-6012 | a run in which a seek falls between the test and the write of an answer and the offsets sought are never pulled |
| `LiteOverlaps.PollOvertakesTheSeek` | python/client/consumer.py:6321-6352 | a run in which a seek falls between the halves of a poll and the consumed cursor ends past the pull cursor |
| `LiteOverlaps.RowsOutliveTheRelease` | python/client/consumer.py:5945-6012 | a run in which a queue given up before an accepted answer was enqueued is polled afterwards |
| `LiteOverlaps.LateStartPullsAgain` | python/client/consumer.py:5625-5648 | a run in which a start offset written late takes the pull cursor back over cached rows |
| `LiteOverlaps.StartOutlivesTheUnsubscription` | python/client/consumer.py:5549-5570 | a run in which the subscription ends while a rebalance has a start offset in its hands and the released queue gets a pull cursor |
| `LiteOverlaps.TakeOverLosesIff` | python/client/consumer.py:5549-5570 | if a rebalance takes a queue over while its subscription is ending, a row can get lost behind the pull cursor exactly when a row is left to be delivered |
| `LiteOverlaps.RoundsDrift` | python/client/consumer.py:5076-5102 | a run after which one round is cached and two are counted |
| `LiteOrder.StepKeepsOrderIff` | python/client/consumer.py:6354-6389 | while a queue is held, a clean step keeps committed <= consumed <= pulled if and only if no replay begins below, and no commit names, something past the place of consumption |
| `LiteOrder.OffsetsStayOrdered` | python/verify_lite_pull_live.py:289-335 | that order through every run of such steps |
| `LiteGate.CacheStaysBounded` | python/client/consumer.py:6032-6135 | in every run from the start, clean or not, a queue caches at most the count limit and three answers, two unless its subscription is just ending; a queue that is not held is never refused |
| `LiteGate.CleanCacheStaysBounded` | python/client/consumer.py:6032-6135 | in every run of clean steps at most the limit and one answer, two while its subscription ends |
| `LiteGate.AskOverrunsIff` | python/client/consumer.py:6032-6135 | a pull the gate lets through can take a queue past the limit and one answer exactly when it caches more than the limit already, which happens only to a queue that is not held |
| `LiteGate.SeeingAllKeepsTheLimit` | python/client/consumer.py:6032-6135 | runs in which the gate is never asked about such a queue stay within the limit and one answer |
| `LiteGate.BoundIsReached` | python/client/consumer.py:5549-5570 | for every limit and size of answers a run from the start that caches the limit and three answers |
| `LiteGate.CleanBoundIsReached` | python/client/consumer.py:5549-5570 | and one of clean steps that caches the limit and two |
| `LiteGate.RunProjects` | python/client/consumer.py:6032-6135 | every run of the whole consumer through its four gates is, queue by queue, a run through the gate of that queue |
| `LiteGate.EveryCacheIsBounded` | python/verify_lite_pull_live.py:414-503 | so whatever the threads do with any number of queues, no queue comes to cache more than the count limit and three batches |
| `LiteOrder.RoundsAlwaysAccount` | python/client/consumer.py:5076-5102 | in every run, clean or not, the pending rounds add up to the cached rows |
| `LiteShared.DeedProjects` | python/client/consumer.py:6144-6192 | whatever happens to the shared buffer and tables is for each queue one access of its own or none |
| `LiteShared.RunProjects` | python/client/consumer.py:6144-6192 | every run over any number of queues is, for each queue, a run of the machine of one queue |
| `LiteShared.EveryQueueDeliversExactlyOnce` | python/verify_lite_pull_live.py:289-335 | in every run of clean accesses over any number of queues every queue delivers exactly once, in order and without a gap |
| `LiteOperations.PollProjects` | python/client/consumer.py:6321-6352 | a whole poll takes from each queue a number of its oldest rows and moves its cursor past them |
| `LiteOperations.SeekProjects` | python/client/consumer.py:6354-6389 | a whole seek is a seek of its own queue; no other notices |
| `LiteOperations.AnswerProjects` | python/client/consumer.py:5945-6012 | a followed answer moves the pull cursor of its own queue only |
| `LiteOperations.ReadBackProjects` | python/client/consumer.py:6411-6432 | reading a committed offset back fills the slot of its own queue only |
| `LiteOperations.AssignProjects` | python/client/consumer.py:5625-5648 | an assignment gives up or takes over each queue by the accesses of that queue |
| `LiteOperations.UnsubscribeProjects` | python/client/consumer.py:5549-5570 | so does the end of a subscription, on a thread of the application and whatever the pull thread is doing; no other queue takes a step |
| `LiteOperations.RebalanceProjects` | python/client/consumer.py:6264-6318 | so does a rebalance, which also sends the slots of released queues |
| `LiteOperations.CommitProjects` | python/client/consumer.py:6475-6522 | a commit writes, persists and sweeps the slot of each queue as its scope says |
| `LiteBacklog.DrainedIsAdmittedIff` | cpp/README.en.md:386-403 | in every state that clean steps of any threads lead to from the start, with an empty buffer the gates admit a held queue exactly when no limit is negative |
| `LiteBacklog.BacklogIsDelivered` | python/verify_lite_pull_live.py:414-503 | however the broker cuts the backlogs of any number of queues into answers and orders them, polls and gated pulls deliver all of every queue exactly |
| `LiteFairness.EveryFairScheduleDelivers` | python/verify_lite_pull_live.py:414-503 | in every infinite schedule of polls, gated pulls and commits, step by step in any order, in which nothing is put off for ever there is a moment from which on every held queue has delivered its whole backlog exactly |
| `LiteSchedule.SomeScheduleDelivers` | python/verify_lite_pull_live.py:414-503 | there are such schedules, for whatever a queue matches and wherever its backlog ends; one is built deed by deed |
| `PushQueue.ProcessQueue.TakeBatch` | python/client/consumer.py:3286-3331 | the batch is the front of the buffer, of the configured size, tagged with the buffer’s generation and counted as taken: the step Take of the machine |
| `PushQueue.ProcessQueue.Register` | python/client/consumer.py:3702-3729 | the whole batch becomes in flight and is stamped with the delivery time: the step Register |
| `PushQueue.ProcessQueue.Deregister` | python/client/consumer.py:3572-3580 | exactly the batch leaves the registration, in any state: the step Deregister |
| `PushQueue.ProcessQueue.HeldEntries` | python/client/consumer.py:3582-3594 | in-flight and buffered messages, each once, in first-seen order |
| `PushQueue.ProcessQueue.FirstEntry` | python/client/consumer.py:3596-3601 | the head is the first entry with the smallest offset, none if nothing is held |
| `PushQueue.ProcessQueue.Contains` | python/client/consumer.py:3603-3614 | membership in registration or buffer |
| `PushQueue.ProcessQueue.RemoveEntry` | python/client/consumer.py:3616-3625 | the message leaves the registration, and the buffer if it is its front: the step SweepRemove |
| `PushQueue.ProcessQueue.Requeue` | python/client/consumer.py:3558-3570 | the messages go back to the front of the buffer in their order, if the queue still has one: the step Requeue |
| `PushQueue.ProcessQueue.Advance` | python/client/consumer.py:4039-4065 | the offset rises to one past the highest processed message but not past a failed one; a stale generation or a frozen offset voids it: the step Advance |
| `PushQueue.ProcessQueue.SendBackBatch` | python/client/consumer.py:3916-3948 | the tail divides into sent and failed among the messages still attached |
| `PushQueue.ProcessQueue.Settle` | python/client/consumer.py:3828-3914 | one settlement: after anything but success every attached message of the batch is sent back or failed, after success exactly the attached ones past the acknowledged index; the failed return to the buffer, and the offset ends one past the highest processed message but not past a failed one; broadcasting sends nothing |
| `PushQueue.ProcessQueue.CorrectTagsOffset` | python/client/consumer.py:4067-4100 | an answer without rows moves the offset only when nothing is buffered or taken and the offset is not frozen: the step NoMatch |
| `PushQueue.ProcessQueue.Retire` | python/client/consumer.py:2196-2224 | everything of the queue is dropped, the generation moves, the offset is handed to the caller, the freeze stays: the step Retire |
| `PushQueue.ProcessQueue.SweepRound` | python/client/consumer.py:3663-3700 | attempt after attempt, at most 16, on whatever is the head then, until it has not expired; ordered queues are left alone |
| `PushQueue.RoundInOrder` | python/client/consumer.py:3663-3700 | on a buffer in order a round returns only expired messages, each once, smallest offsets first; exactly those leave; it stops early only at a head that has not expired |
| `PushQueue.RoundEnds` | python/client/consumer.py:3663-3700 | a round sends back at most 16 messages and only such as the listener has had for strictly longer than the timeout; unless the broker refuses one it leaves off with 16 sent back, nothing left, or a smallest offset never stamped or not that old |
| `PushQueue.TailTakesTheUnacknowledgedIff` | python/client/consumer.py:3828-3914 | every message past the acknowledged prefix is redelivered exactly when the index is not below -1 or so low that the slice starts over |
| `PushQueue.TailDivides` | python/client/consumer.py:3916-3948 | as multisets the tail is sent, failed and skipped messages |
| `PushRuns.StepKeeps` | python/client/consumer.py:3663-3729 | each lock section the guard allows keeps the invariant of the queue |
| `PushRuns.EveryGuardedRunSettles` | python/verify_clean_expired_msg_live.py:137-182 | over every interleaving of pull, dispatch, partial ack, sweep, revoke and rebuild the guard allows: each pulled message is exactly one of buffered, in flight, acknowledged, sent back or dropped, the queue lists nothing of a revoked generation, nothing is sent back twice, the offset passes nothing still owed |
| `PushRuns.CommittedMeansSettled` | python/verify_clean_expired_msg_live.py:137-182 | below the offset in memory everything the present buffer pulled was acknowledged or sent back |
| `PushDurable.NothingIsLost` | python/verify_clean_expired_msg_live.py:137-182 | across any revokes, crashes, rebuilds and stored offsets, those of revoked buffers stored as late as may be: every offset of the log from where consumption began up to the stored one was pulled by some buffer and acknowledged or sent back |
| `PushDurable.LateOffsetPassesTheRestart` | python/client/consumer.py:2196-2224 | a life in which a queue is rebuilt at a lower start offset before the offset of the revoked buffer is stored, and the stored offset passes a row nobody pulled |
| `PushDurable.StartLosesNothingIff` | python/client/consumer.py:2196-2224 | a queue rebuilt while nothing is stored loses nothing from its start offset on, whatever follows until the start policy is asked again, exactly when no offset still to be stored lies past a row that is not done |
| `PushOverlaps.ApartIffPromised` | python/client/consumer.py:3663-3729 | the guard is exact: from any state guarded runs reach, a step keeps all of that through every guarded continuation if and only if the guard allows it |
| `PushOverlaps.SettleIsARun` | python/client/consumer.py:3828-3914 | an uninterrupted settlement is one run of the machine and ends where the method ends |
| `PushOverlaps.SettlementIsARun` | python/client/consumer.py:3828-3914 | for every status and index the settlement is a run that acknowledges nothing unless the listener succeeded, and then the messages up to the index; after a failure every attached message ends sent back or failed |
| `PushOverlaps.TakeOverlaps` | python/client/consumer.py:3286-3331 | a run from the start, guarded but for one Take of the message the sweep is sending, that breaks the promise |
| `PushOverlaps.RegisterOverlaps` | python/client/consumer.py:3702-3729 | the same for a Register in front of the message the sweep is sending |
| `PushOverlaps.StaleRegisterHappens` | python/client/consumer.py:3702-3729 | the same for a Register after the queue was revoked |
| `PushOverlaps.PickOverlaps` | python/client/consumer.py:3663-3700 | the same for a sweep that picks a message just settled |
| `PushOverlaps.ReturnOverlaps` | python/client/consumer.py:3663-3700 | the same for a listener that returns while the sweep sends its message, which goes back twice |
| `PushOverlaps.StaleRequeueSkipsHeldMessages` | python/client/consumer.py:3828-3914 | the same for failed messages put into a rebuilt buffer, after which the offset is past a message still buffered |
| `PushOverlaps.SweepRepeatsItself` | python/client/consumer.py:3828-3914 | and a run after which both rows were taken, refused and put back, and the sweep sends the same message to the broker on every pass |
| `PushOverlaps.BroadcastStepSendsIff` | python/verify_ack_index_live.py:158-228 | with broadcasting the next step of anybody can send something back exactly when the sweep holds a message |
| `PushOverlaps.PassSendsIff` | python/client/consumer.py:3663-3700 | a pass of the sweep can send something back exactly when the head of the queue has been handed to a listener |
| `PushOverlaps.BroadcastSends` | python/client/consumer.py:3663-3700 | a run of a broadcasting consumer that sends a message back while the listener has it |
| `PushGates.AdmittedIff` | python/client/consumer.py:3130-3192 | a pull is admitted exactly when count, started-mebibyte-free size and, unless ordered, span are within their limits |
| `PushGates.Gatekeeper.FlowControlHit` | python/client/consumer.py:3130-3192 | the verdict of the three gates; after n trips (n + 999) / 1000 warnings were logged |
| `PushGates.Gatekeeper.Divide` | python/client/consumer.py:2295-2327 | enabled budgets overwrite the per-queue limits with their share; without queues nothing changes |
| `PushGates.TopicBudgetIsKept` | python/verify_flow_control_live.py:181-206 | whatever the queues of a topic hold and have on its way when its budget is divided: in every run until the next division they hold together at most the budget plus one dispatch and one answer per queue, plus what each had coming beyond that |
| `PushGates.CountingOffsetsIsTheSame` | cpp/README.en.md:276-294 | in every guarded run counting held messages by identity and by queue offset gives the same number |
| `PushGates.OnlyFoundGrows` | python/client/consumer.py:3130-3192 | no lock section but an answer with rows makes a queue hold more, however the sections overlap |
| `PushGates.HeldIsBounded` | cpp/README.en.md:276-294 | after a division that any run precedes, and until the next, in every run: a queue holds at most what it held then, with one answer if a pull was on its way, or quota plus one dispatch plus one answer |
| `PushGates.LatePullComesInAnyway` | python/client/consumer.py:2295-2327 | the first bound is reached, for all old and new quotas and sizes of answers: a pull let through under the old quota comes in after the division |
| `PushGates.HiddenBatchSlipsPastTheGate` | python/client/consumer.py:3130-3192 | the second bound is reached, for every quota, every size of answers and every dispatch of at most one more than the quota |
| `PushGates.GateOverrunsIff` | python/client/consumer.py:3130-3192 | in every state a run reaches: some answer to a pull the gate lets through takes the queue past quota plus one answer exactly when the gate sees no more than the quota and the queue holds more |
| `PushGates.SeeingAllKeepsTheQuota` | python/client/consumer.py:3130-3192 | runs in which the gate is never asked in such a state stay within quota plus one answer, or what the queue had coming at the division |
| `HeartbeatV2.Stream.SendToBroker` | python/client/heartbeat_v2.py:104-145 | which body goes out and what is remembered of the answer, for one broker; other brokers’ entries stay; if the pairs of topic and expression are not those confirmed last, the broker holds exactly the subscriptions afterwards |
| `HeartbeatV2.Stream.Reset` | python/client/heartbeat_v2.py:60-70 | fingerprints are forgotten, the knowledge who speaks V2 is not |
| `HeartbeatV2.BrokerTable.Heartbeat` | python/verify_heartbeat_v2_live.py:147-225 | the broker’s flags and its stored fingerprint and subscriptions after a full or a light body |
| `HeartbeatV2.NoChangeMeansAgreement` | python/verify_heartbeat_v2_live.py:147-225 | for any number of instances, any subscriptions and any lost requests and answers: an answer without change leaves the broker with exactly the sender’s pairs of topic and expression, if light rounds are not stored |
| `HeartbeatV2.ReportedChangeHeals` | python/client/heartbeat_v2.py:104-145 | after any run, two rounds in a row of one instance make the broker hold its pairs of topic and expression |
| `HeartbeatV2.RulesAreThePairs` | python/remoting/protocol/heartbeat.py:160-194 | what the fingerprint is taken of is the same for two tables if and only if they hold the same pairs of topic and expression |
| `HeartbeatV2.ChangedPairsGoOutInFull` | python/client/heartbeat_v2.py:104-145 | an instance whose pairs are not those its broker confirmed sends its whole table, which the broker then holds |
| `HeartbeatV2.FlagComparesWithThePreviousRound` | python/verify_heartbeat_v2_live.py:147-225 | if every round is stored, the flag is true exactly when the fingerprint differs from the previous round, V1 counting as 0 |
| `HeartbeatV2.LossyGroupIsMisledIff` | python/verify_heartbeat_v2_live.py:147-225 | if light rounds are stored and answers get lost, a group whose subscriptions do not change can reach an unflagged light round with the wrong rules at the broker exactly when two of its instances differ in their rules |
| `HeartbeatV2.LosslessGroupIsMisledIff` | python/verify_heartbeat_v2_live.py:147-225 | if every answer is heard and subscriptions do not change, exactly when two instances have the same rules and a third has others |
| `HeartbeatV2.ChangingGroupIsMisledIff` | python/verify_heartbeat_v2_live.py:147-225 | once subscriptions change, every group that speaks V2 can be misled if it has an instance and answers get lost, and if it has two instances when none does; exactly those |
| `HeartbeatV2.UniformGroupAgrees` | python/client/heartbeat_v2.py:104-145 | instances that share their rules keep the broker right under either policy, in every run |
| `HeartbeatV2.LoneInstanceAgrees` | python/verify_heartbeat_v2_live.py:147-225 | for a lone instance the two policies give the same run, and after every round taken the broker holds its rules |
| `RebalanceSettlement.GroupByTopic` | python/client/consumer.py:144-153 | each topic is mapped to its set of queues |
| `RebalanceSettlement.ChangedTopics` | python/client/consumer.py:156-163 | exactly the topics of which a queue was gained or lost |
| `RebalanceSettlement.Settlement.RestampVersions` | python/client/consumer.py:2440-2462 | the subscribed topics that moved get the new version and keep everything else, the others are as they were, and no topic comes or goes |
| `RebalanceSettlement.Settlement.BeatAll` | python/client/consumer.py:2042-2086 | every broker is asked once; a failure leaves that broker as it was and stops nobody |
| `RebalanceSettlement.Settlement.AfterAssignmentChange` | python/client/consumer.py:2420-2438 | nothing moved: a stutter; otherwise the moved, subscribed topics and only they get the new version, the quotas are divided, every broker gets one beat, the moved topics are notified; the links end where replaying that log takes them |
| `RebalanceSettlement.LogOrder` | python/client/consumer.py:2420-2438 | the order of the duties: a restamp of every topic that moved and is subscribed and of no other, then the division, then one beat per broker in turn, then one notification per moved topic in turn |
| `RebalanceSettlement.MovedIff` | python/client/consumer.py:156-163 | comparing the sets of broker and queue number finds a topic if and only if one of its queues was gained or lost |
| `RebalanceSettlement.RestampKeepsRules` | python/remoting/protocol/heartbeat.py:160-194 | restamping changes no rule, hence no fingerprint |
| `RebalanceSettlement.RestampIsSeen` | python/client/consumer.py:2440-2462 | a moved, subscribed topic gives a table with other versions |
| `RebalanceSettlement.BrokerHoldsTheNewVersionsIff` | python/client/consumer.py:2329-2438 | after any number of periodic beats before the restamp and of beats after it a broker holds the new versions exactly when there is one of the latter and no fingerprint was confirmed between the reset and the restamp |
| `RebalanceSettlement.ListenerFiresAfterTheBrokersKnowIff` | cpp/README.en.md:306-313 | at the moment any notification of the settlement is made, with periodic beats anywhere before and after the restamp: every broker holds the restamped versions exactly when each has answered a beat since the restamp that was not made light by one confirmed between the reset and the restamp; the settlement’s own beats have gone out by then |
| `RebalanceSettlement.StaleVersionsStay` | python/client/heartbeat_v2.py:104-145 | versions missed by a light settlement beat are not repaired by later beats |
| `FairSemaphore.Semaphore.TryFirst` | python/client/backpressure.py:31-58 | taking a ticket and looking once, also on an empty budget |
| `FairSemaphore.Semaphore.LookAgain` | python/client/backpressure.py:31-58 | one pass of the loop: granted exactly at the head with room and not on a late wake-up, then with the permits taken and everybody woken; a late one leaves and wakes everybody; any other sleeps |
| `FairSemaphore.Semaphore.LeaveQueue` | python/client/backpressure.py:60-66 | a leaving ticket wakes everybody behind it |
| `FairSemaphore.Semaphore.GiveBackPermits` | python/client/backpressure.py:68-74 | returned permits are free again and wake everybody; nothing is returned for none |
| `FairSemaphore.Semaphore.SetTotalPermits` | python/client/backpressure.py:80-85 | a resize leaves what is lent as it was, the free count below zero if need be, and wakes everybody |
| `FairSemaphore.EveryRunKeeps` | python/verify_backpressure_live.py:188-297 | through every run free plus lent is the total, grants then waiters are in arrival order, and a head that could be served is awake |
| `FairSemaphore.EveryRunFromTheStart` | python/verify_backpressure_live.py:188-297 | in every run of a new semaphore free plus lent is the total, grants then waiters are arrivals in their order, and a first waiter there is room for is awake |
| `FairSemaphore.RoomServesTheFirst` | python/client/backpressure.py:31-58 | with room for the first n waiters, looking once each serves them all, in order |
| `FairSemaphore.ExpansionWakesWaiters` | python/verify_backpressure_live.py:188-297 | raising the total by what the first n want gets them through |
| `AsyncSend.Capacity` | python/client/producer.py:122-127 | the configured capacity, but not below the floor |
| `AsyncSend.SendLengthAdds` | python/client/producer.py:130-136 | a batch counts for the sum of its parts, an empty body and an empty batch for one byte |
| `AsyncSend.BackPressure.Begin` | python/client/producer.py:1299-1327 | a send gets its slot at once exactly when nobody waits and one is free, waits if its budget lasts, and is rejected otherwise, without asking if its budget is used up |
| `AsyncSend.BackPressure.AskForBytes` | python/client/producer.py:1299-1327 | with a slot it is submitted exactly when nobody waits for bytes and as many are free; refused, it gives the slot back and takes no byte |
| `AsyncSend.BackPressure.CompleteSend` | python/client/producer.py:139-168 | both permits come back once, however often the callback is called |
| `AsyncSend.GivesBackOnceIff` | python/client/producer.py:160-168 | with the test and the mark of the flag as two steps, permits are given back at most once in every continuation exactly when nobody tests while another caller stands between its test and its mark |
| `AsyncSend.SecondReleaseOverfills` | python/client/producer.py:160-168 | permits given back a second time are more than both gates ever had |
| `AsyncSend.EveryRunAddsUp` | python/verify_backpressure_live.py:188-297 | through every interleaving free slots plus sends holding one, and free bytes plus bytes in flight, are the capacities; the executor got exactly the sends that passed both gates, once |
| `AsyncSend.PermitsAddUp` | python/verify_backpressure_live.py:188-297 | the same from a new gate on: both capacities are what is free and what the sends in flight hold, and the executor got each submitted send once and no other |
| `AsyncSend.EverythingComesBack` | python/verify_backpressure_live.py:188-297 | once all sends are finished or rejected both semaphores are at capacity |
| `AsyncSend.RejectedNeverLands` | python/verify_backpressure_live.py:188-297 | a rejected send never reached the executor |
| `InFlightTable.ResponseTable.Pop` | python/remoting/client.py:586-649 | popping decides who owns the entry: the step Answer of the machine |
| `InFlightTable.ResponseTable.FailFast` | python/remoting/client.py:1016-1058 | exactly the entries of the connection are popped, each once: the step ConnectionDies |
| `InFlightTable.ResponseTable.SweepExpired` | python/remoting/client.py:958-987 | exactly the entries strictly past timeout plus one second are popped, each once: the step Sweep |
| `InFlightTable.EveryRequestEndsOnce` | python/verify_fail_fast_live.py:140-206 | whatever order answers, expiries, deaths and failing writes come in, no request is told two outcomes, and one whose entry and claims are gone was told exactly one |
| `InFlightTable.OutcomesAreTrue` | python/verify_fail_fast_live.py:140-206 | in every run: who is told of an answer was answered, who is told of an expiry was swept or gave up, who is told of a dead connection was on it when it died, who is told of a failed write had one |
| `InFlightTable.DeathTakesItsOwn` | python/verify_fail_fast_live.py:140-206 | a dying connection claims exactly its own entries and changes no other |
| `InFlightTable.LateAnswerIsDropped` | README.en.md:36 | in every run an answer after its request was told an outcome is dropped, and one to an asynchronous request exactly when somebody has claimed or told it |
| `InFlightTable.FailedWriteIsSilentIff` | python/remoting/client.py:882-914 | in every run a failing write of an asynchronous request reports nothing exactly when the request was claimed or told before, and afterwards it has exactly one outcome, told or to be told |
| `BatchAck.ToBytes` | python/remoting/protocol/bitset.py:61-68 | the bytes mark exactly the bits, little-endian, the last byte not zero |
| `BatchAck.FromBytes` | python/remoting/protocol/bitset.py:71-81 | exactly the marked bits are read |
| `BatchAck.PackingIsUnique` | python/remoting/protocol/bitset.py:61-68 | a set of bits has one packed form |
| `BatchAck.MarkedIsTheBit` | python/remoting/protocol/bitset.py:61-68 | a bit is marked exactly when it is set in the little-endian number the bytes write |
| `BatchAck.DecodeReadsEncode` | python/remoting/protocol/body.py:780-812 | Base64 reads back every sequence of bytes |
| `BatchAck.EncodesByGroups` | python/remoting/protocol/body.py:780-812 | every three bytes are four symbols of the same number of 24 bits, one or two at the end are filled up with zero bits and marked |
| `BatchAck.FromCheckpoints` | python/remoting/protocol/body.py:834-874 | one entry per pop, acknowledging exactly the asked offsets, with revive queue and invisible time of its first checkpoint and the broker of the first; refused exactly when an offset lies below its checkpoint |
| `BatchAck.CheckpointIsInAnEntry` | python/remoting/protocol/body.py:834-874 | every checkpoint is acknowledged by an entry with its retry flag, queue, checkpoint offset and pop time, at the distance of its offset |
| `BatchAck.BitIsACheckpoint` | python/remoting/protocol/body.py:834-874 | every bit of every entry is the distance of some checkpoint of that pop |
| `BatchAck.EntryIsTheFirst` | python/remoting/protocol/body.py:834-874 | revive queue and invisible time of an entry are those of the first checkpoint of its pop |
| `BatchAck.RoundTrip` | rust/README.md:307 | merged, packed, encoded, decoded and unpacked, every pop acknowledges exactly its offsets, and no two entries share a key |
| `BatchAck.KeyTextIsInjective` | python/remoting/protocol/body.py:834-874 | checkpoints fall together exactly when all four fields agree, although the key is joined as text |
| `MessageCodec.WriteFrame` | python/common/message_decoder.py:248-299 | the segments written one after the other are the frame, refused when a field does not fit |
| `MessageCodec.Encode` | python/selfcheck.py:25-51 | the computed size is the number of bytes written |
| `MessageCodec.FrameReadsBack` | python/common/message_decoder.py:302-383 | a frame reads back field by field, with the size it was written with, whatever follows it |
| `MessageCodec.FixedLayout` | python/common/message_decoder.py:248-299 | where segments 1 to 9 stand in either version and the two magic numbers, byte by byte, big-endian in two’s complement |
| `MessageCodec.HostLayout` | python/common/message_decoder.py:248-299 | where the two hosts, the store time, the retries and the prepared offset stand; a host takes 20 bytes if its bit of the system flag is set and 8 otherwise |
| `MessageCodec.BodyLayout` | python/common/message_decoder.py:248-299 | the body stands behind four bytes of length |
| `MessageCodec.TopicLayout` | python/common/message_decoder.py:248-299 | the topic stands behind one byte of length in the first version and two in the second |
| `MessageCodec.PropertiesLayout` | python/common/message_decoder.py:248-299 | the properties stand behind two bytes of length, and nothing follows |
| `MessageCodec.SignedIff` | python/common/message_decoder.py:248-299 | a number is refused exactly when no bytes of the width of its field read as it |
| `MessageCodec.DecodeMessages` | python/common/message_decoder.py:386-409 | the walk over a stream, by declared sizes, up to the first unreadable frame |
| `MessageCodec.WalkStaysInside` | python/common/message_decoder.py:386-409 | accepted frames never declare more bytes than there are |
| `MessageCodec.StreamReadsBackIff` | python/selfcheck.py:119-165 | a concatenation reads back as the original list exactly when no message carries a size larger than the bytes it takes |
| `PropertyText.ParseText` | python/common/message_decoder.py:105-121 | the index scan computes the entries of the text |
| `PropertyText.PropertiesReadBackIff` | python/common/message_decoder.py:93-121 | properties survive exactly when names and values are not empty, names hold no separator and values no \x02 |
| `PropertyText.ParseIsGood` | python/common/message_decoder.py:105-121 | only such entries are ever read |
| `PropertyText.TableHas` | python/common/message_decoder.py:105-121 | of several entries with one name the last is read |
| `Allocation.AveragelyIsASegment` | python/client/consumer.py:299-330 | the share is a contiguous segment given by the position of the instance |
| `Allocation.AveragelyPartitions` | python/verify_lite_pull_live.py:171-187 | laid end to end the shares of distinct instances are the queue list itself |
| `Allocation.AveragelyIsEven` | python/verify_lite_pull_live.py:648-751 | shares differ by at most one queue |
| `Allocation.AveragelyCoversIff` | python/client/consumer.py:299-330 | every queue is in somebody’s share exactly when each instance that would get some has an id that is not empty and not that of an earlier one |
| `Allocation.EmptyIdLosesQueues` | python/client/consumer.py:299-352 | with ids "" and "b" the first of two queues is in no share, under either strategy |
| `Allocation.AveragelyByCircle` | python/client/consumer.py:333-352 | the loop takes every n-th queue from the position of the instance |
| `Allocation.CircleOwner` | python/verify_lite_pull_live.py:648-751 | the queue at position k belongs to instance k mod n and to nobody else |
| `Allocation.CircleIsEven` | python/verify_lite_pull_live.py:648-751 | shares differ by at most one queue |
| `Allocation.CircleCoversIff` | python/client/consumer.py:333-352 | the same condition decides for the circle |
| `Allocation.AveragelyIsFair` | python/client/consumer.py:299-330 | every queue has exactly one owner among distinct instances |
| `Allocation.CircleIsFair` | python/client/consumer.py:333-352 | every queue has exactly one owner among distinct instances |
| `Allocation.SingleRoomIsTheInnerStrategy` | python/client/consumer.py:628-697 | with one room the room layer gives the inner share |
| `Allocation.NearbyHasOneOwner` | python/client/consumer.py:628-697 | over any fair inner strategy every queue still has exactly one owner |
| `HashRing.Bisect` | python/client/consumer.py:473-479 | the index of the first key at or past the hash |
| `HashRing.Router.Add` | python/client/consumer.py:453-465 | replicas are placed in order, later ones overwrite, numbering continues for an instance already there, keys stay sorted |
| `HashRing.Router.Route` | python/client/consumer.py:473-479 | the owner of the next place at or past the hash, wrapping around |
| `HashRing.Allocate` | python/client/consumer.py:520-560 | the share is exactly the queues whose place routes to the instance |
| `HashRing.EveryQueueHasOneOwnerIff` | python/verify_lite_pull_live.py:648-751 | for any hash no two instances hold one queue, and some instance holds it exactly when there are instances and replicas and its place is not an empty id’s |
| `HashRing.EveryHashGivesTheQueueIff` | python/client/consumer.py:520-560 | every hash gives the queue to somebody exactly when there are instances and replicas and no id is empty |
| `HashRing.QueuesMoveOnlyToTheNewcomer` | python/client/consumer.py:520-560 | when an instance joins, a queue keeps its owner or moves to the newcomer, also with collisions |
| `AclContent.Request.AddExtField` | python/remoting/protocol/remoting_command.py:263-264 | a field is set in its place, or at the end |
| `AclContent.Request.BuildContent` | python/remoting/rpchook.py:77-98 | the loop computes the content |
| `AclContent.Request.Sign` | python/remoting/rpchook.py:66-74 | access key and token first, then the content, then the signature |
| `AclContent.InsertionOrderDoesNotShow` | python/verify_acl_signature_vectors.py:30-73 | every permutation of the fields gives the same content |
| `AclContent.SignatureIsLeftOut` | python/verify_acl_signature_vectors.py:30-73 | no existing or new signature changes the content |
| `AclContent.FieldIsCovered` | python/remoting/rpchook.py:77-98 | a field is in the content between the values of smaller and of larger keys |
| `AclContent.LessIff` | python/remoting/rpchook.py:77-98 | keys are ordered by the first character in which they differ, and a beginning comes before what it begins |
| `AclContent.EarlierFieldsAreSigned` | csharp/README.en.md:449-454 | what hooks wrote before the ACL hook is inside the signed content |
| `AclContent.LateFieldShowsIff` | csharp/README.en.md:449-454 | a field added or overwritten after signing leaves the content as it was exactly when it is the signature or shows what its key showed before |
| `AclContent.SigningTwiceIsOnce` | python/remoting/rpchook.py:66-74 | signing a request twice is signing it once |
| `ClassMap.ScanFile` | php/bootstrap.php:72-118 | the token loops add exactly the names the file declares, each under the nearest preceding namespace; entries already there stay |
| `ClassMap.ScanClasses` | php/bootstrap.php:60-122 | the map holds exactly the declared names, each with the first file that declares it |
| `ClassMap.Autoloader.Load` | php/bootstrap.php:20-46 | a file at the spelled path wins; otherwise the entry of the map if that file is there; the map is built on the first miss and kept |
| `ClassMap.AnonymousClassWithAParent` | php/bootstrap.php:101-117 | an anonymous class is skipped, unless it names a parent, whose name is then registered |
| `ClassMap.SpacedClassConstant` | php/bootstrap.php:101-117 | a class constant is skipped, unless a blank stands between the two colons and the keyword; then the next plain name is registered |
| `ClassMap.RegistersIff` | php/bootstrap.php:101-117 | a keyword registers a name exactly when no double colon stands right before it and a plain name comes before the first brace or parenthesis |
| `ClassMap.RegistersAs` | php/bootstrap.php:72-118 | a declaration behind a namespace declaration gets the names and separators of that, a separator, and its own first plain name |
| `ClassMap.RegistersGlobally` | php/bootstrap.php:72-118 | one no namespace declaration stands before gets its first plain name |
| `ClassMap.SpelledIs` | php/bootstrap.php:20-46 | exactly names that begin with the client’s namespace spell a path: the rest with slashes for backslashes and the extension added |
| `ClassMap.MapIsRightIff` | php/bootstrap.php:60-122 | the map has exactly the classes really declared, each with the file that declares it first, if and only if every keyword that declares nothing and registers a name registers one that the same or an earlier file really declares |
| `CauseChain.ResponseCodeOf` | python/verify_acl_live.py:51-68 | the walk ends on every heap and returns the first non-zero code of its path |
| `CauseChain.DeepestMessage` | python/verify_acl_live.py:71-83 | the message is computed along the same path |
| `CauseChain.WalkMeetsEverything` | python/verify_acl_live.py:51-68 | the path contains every object the links lead to |
| `CauseChain.WalkGoesOn` | python/verify_acl_live.py:51-68 | from an object the walk goes to its explicit cause, to its chained exception if it has none, and ends where there is neither, the cause is no exception, or it has been before |
| `CauseChain.NoneIffNobodyHasACode` | python/verify_acl_live.py:51-68 | no code is found exactly when no object on the chain carries one |
| `CauseChain.FirstCodeAlongTheLinks` | python/verify_acl_live.py:51-68 | what is found is the code of an object all of whose predecessors carry none |
| `CauseChain.LastMessageIs` | python/verify_acl_live.py:71-83 | the message is that of the last object of the path with an error message or a text, the error message first, and the starting text if there is none |

## Left out

- Sockets, TLS, proxies, threads, sleeps and real clocks: they appear only as steps and parameters.
- Ordered consumption, POP consumption and transactions of the push consumer: the settlement modelled is the concurrent one.
- The exception path that puts a whole batch back after an unexpected error in the dispatch thread: hooks and listeners are caught before it.
- The auto-commit timer, the offset files of broadcasting consumers and consume-from-where of the lite-pull consumer: start offsets are parameters.
- LitePullConsumer.Consumer.Poll: waiting for rows; the method is both halves of a poll with nobody in between, the runs interleave them.
- LitePullConsumer.Consumer.Seek: the method is the whole seek with nobody in between, the runs interleave its parts; the pin is written together with the pull cursor.
- LitePullConsumer.Consumer.FollowAnswer: filtering, retries and the pull request itself; the rows arrive filtered.
- LiteRuns.EveryRunDeliversExactlyOnce: speaks of runs of clean steps, the exact guard of LiteFailures.CleanIffAllStaysFine; one thread of each kind works on a queue at a time, and the lookup of a start offset gets through.
- LiteOverlaps.SeekDeliversTwiceIff: continuations in which no other replay begins and nobody gives the queue up.
- LiteFailures.CleanIffAllStaysFine: the step that takes a queue over while its subscription is ending breaks the promise by definition, since entries of a held queue are then still to be dropped; LiteOverlaps.TakeOverLosesIff says when a row is lost.
- LiteOperations.PollProjects: a poll looks all queues up in one step; the code iterates over the table of pull cursors without a lock, and a queue added or removed meanwhile makes it fail after the rows were taken.
- LiteOperations.AssignProjects: the seek pin is not consulted for a start offset; in the code it is, first of all, between the drop of the pull cursor and that of the pin while a queue is given up.
- LiteOperations.CommitProjects: a negative committed offset starts nothing; the code would pull from it and be corrected by the broker.
- LiteOrder.OffsetsStayOrdered: runs in which no replay begins below a committed offset, no explicit commit names an offset past the place of consumption, and nobody reads the consumed cursor to commit it while a seek backwards is about to write it.
- LiteBacklog.BacklogIsDelivered: one schedule, in which nobody seeks, commits or changes the assignment; LiteFairness.EveryFairScheduleDelivers is about all of them.
- LiteFairness.EveryFairScheduleDelivers: schedules in which nobody seeks or changes the assignment, every held queue has a pull cursor, backlogs end, and the broker answers within them.
- PushQueue.ProcessQueue.SweepRound: the orderly check and the answers of the broker are parameters; the rounds run with nobody in between, the runs interleave their parts.
- PushQueue.ProcessQueue.Register: registering a batch and stamping its messages are one step; the code stamps them after it has left the lock.
- PushRuns.EveryGuardedRunSettles: speaks of runs the guard allows, which PushOverlaps.ApartIffPromised shows to be exact; one dispatch thread works on a queue.
- PushDurable.NothingIsLost: the same runs without offset corrections by the broker, a broker that leaves out no offset of its log, and a rebuilt queue that resumes at the stored offset.
- HeartbeatV2.NoChangeMeansAgreement: one broker and one group; producers' part of the heartbeat is not modelled.
- RebalanceSettlement.BrokerHoldsTheNewVersionsIff: one instance of the group talking to the broker; other instances' beats are not interleaved.
- RebalanceSettlement.ListenerFiresAfterTheBrokersKnowIff: the versions of all moved topics are restamped in one step, no beat falls between two of them.
- AsyncSend.BackPressure.CompleteSend: the flag is read and set in one step; AsyncSend.GivesBackOnceIff is about the two steps.
- FairSemaphore.EveryRunKeeps: wake-ups are sets of awake tickets; which awake thread runs next is left to the schedule.
- InFlightTable.EveryRequestEndsOnce: the resend after GO_AWAY, closing idle connections and reuse of request numbers.
- BatchAck.FromCheckpoints: splitting the checkpoint text into its fields, and the JSON around the entries.
- MessageCodec.FrameReadsBack: compression, checksums, UTF-8 and the text form of addresses; bodies, topics, properties and hosts are bytes.
- AclContent.Request.Sign: merging the custom header into the fields before signing, and the HMAC.
- Allocation by fixed configuration and by machine room, and the choice of the local room by name.
- ClassMap.ScanClasses: walking the directory and tokenizing; files arrive as tokens in iteration order.
- Admin calls, tracing, statistics, logging, and the JSON and binary command headers.
