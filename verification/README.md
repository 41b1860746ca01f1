# Verified model of redis-stream-client-go

The library lets any number of clients share one Redis stream of tasks, the load-balancer stream (LBS). A task
is delivered through a consumer group, guarded by an expiring lock key that its consumer keeps extending, and
finished with `DoneStream`. Tasks whose consumer died are re-queued (XACK, XADD, XDEL) by a periodic scan or by
`Claim`, and go to a dead-letter stream when their retries are used up. This project models that protocol and
the parts it stands on, and proves what they promise. `dafny verify dfyconfig.toml` checks all of it.

## How it is modelled

- `Redis.dfy` has the atomic effect of every command; `Protocol.dfy` is a transition system in which every call
  of the library (scan, `Claim`, reader, lock extender, `DoneStream`) is a process and every Redis command one
  step. Any number of clients and processes interleave, any command may fail without effect, a client may crash
  (its processes stop stepping) and restart. `Record`, `Ledger` and `Status` are bookkeeping no client reads:
  they name what became of each generated id.
- `Invariant.dfy` and `Preservation.dfy` give the inductive invariant and its preservation by every step;
  `Guarantees.dfy`, `Runs.dfy`, `Locks.dfy` and `Heartbeat.dfy` derive the theorems, the last three over whole
  runs. `Witness.dfy` describes single steps.
- `Continuations.dfy` speaks of what can still happen after a state. With it `EntryGone.dfy`, `RetryLimit.dfy`,
  `Finishing.dfy` and `SameName.dfy` find the exact conditions of properties that do not always hold. `Outcomes.dfy`
  says that what a recovery reports is what happened.
- `Recovery.dfy` has the same code in its own form, as methods of a class, and proves them equal to the steps of
  the transition system; `Drain.dfy` bounds how many passes empty the pending list; `ClaimText.dfy` has the call
  with its id as a text; `Reader.dfy` ties the reader's method and its steps together.
- `Broker.dfy` is the notification broker as a step system over its channels, with calls that wait in their
  select told apart from calls on their way to it; `Slots.dfy`, `Settled.dfy` and
  `Topology.dfy` the settled check of `ReinitTopology`; `Subscriptions.dfy` the per-master subscriptions;
  `Backoff.dfy` the reader's retry loop; `MutexKey.dfy`, `Entry.dfy` and `Decimal.dfy` the text formats.

Assumptions: a command is applied at most once, and one that errors had no effect; nothing outside the library
runs XDEL, XTRIM or XCLAIM on the LBS; the dead-letter stream is not the LBS; all clients share one
configuration; redsync is set-if-absent with expiry, extend (re-creating an absent key) and delete-if-mine, and a
Lock is one attempt that ends the reader when the key is there (redsync's Lock tries again a number of times by
default: its step stands for the last attempt); the ids given to `Claim` are texts `<ms>-<seq>` as Redis prints
them (`ClaimText.dfy` shows exactly what depends on this);
XREADGROUP hands over some prefix of the undelivered entries; JSON decoding is a parameter, a partial function
from text to stream name; integers are 64-bit where the code does arithmetic on untrusted values (the retry
counter, the backoff delay).

## What came out false, and when it holds

- The documentation says the broker shuts down without send panics. `ShutdownCleanIff` shows that this holds in
  every continuation exactly when no `Send` is between its flag check and its select at the moment `Close` sets
  the flag; otherwise `InFlightCanPanicOrLose` builds a run with a panic and one where a `Send` returns true and
  its notification is never delivered. A call that already waits in its select is safe (`WaitingIsSafe`).
- A comment says an entry that is no longer in the stream can be acknowledged away. After a history of `Claim`
  calls on generated ids, a `Claim` keeps every task in every continuation whose later claims name generated ids
  exactly when its own id has been generated (`ClaimKeepsTasksIff`); from every state, a `Claim` of any later id
  can throw the task away that gets this id (`StrayClaimDiscards`).
- `Claim` takes any text for an id, but builds the lock key from the text: it honours the lock of the entry it
  takes exactly when the text is the one Redis prints (`HonoursLocksIff`, `OtherTextTakes`).
- Over all runs the copies of a task are bounded exactly when MaxRetries is below the 64-bit maximum or no entry
  has a usable name (`RetryLimitIff`); at the maximum every new task can get any number of copies (`Unbounded`).
- `streamLocks` is keyed by data stream name. A pending entry past its reader can be finished exactly when some
  client's `streamLocks` names it or a `DoneStream` call has it (`FinishableIff`), and a second message of the
  name takes the place of the first for good (`Overwritten`). From every reachable state this can happen
  (`SameNameStrands`); the extender of the first entry then goes on renewing its key, for any length of time
  (`StrandedForever`), and as long as the key is there nobody recovers the entry (`KeyStrands`).
- The capped exponential delay holds for every streak exactly when twice the cap fits in 64 bits
  (`ClosedFormIff`); otherwise the delay after the cap turns negative.
- A scan makes headway exactly when fewer than BatchSize live entries stand before the first orphan
  (`PassProgress`); otherwise the same page comes back for ever (`Starved`).
- `slotOwnership` tells texts apart exactly by the multiset of node id and joined slots (`SlotOwnershipIff`), which
  is that of the owners when slot tokens hold no comma (`SlotOwnershipCanonical`); a comma in a token gives two
  texts with different owners and one result (`CommaCollides`).
- `ReinitTopology` reports success with nothing subscribed when listing the masters fails after the old
  subscriptions were closed: after any calls the current masters are covered exactly when the last listing worked
  or there are none (contracts of `ReinitTopology` and `Live`).

## Model

| member | source | states |
|---|---|---|
| Preservation.StepKeeps | impl/requeue.go:51-193 | Every command of every process, success or failure, keeps the invariant that ties server, processes, local maps and task history together |
| Preservation.RunInv | impl/init.go:130-330 | The invariant holds at every point of every run of any number of clients |
| Guarantees.Conservation | impl/requeue.go:102-139 | In every reachable state a task produced after the group exists is in exactly one place: undelivered, pending, in one recoverer's hand, a dead letter, or closed (finished, dropped, lost in the ack-add gap, discarded), and that place is the one of its newest copy |
| Guarantees.OneClaimWins | impl/relredis.go:213-229 | At most one `Claim` of an id ever returns nil, and none does once `DoneStream`'s XACK removed it |
| Guarantees.OneHolder | impl/requeue.go:102-111 | At most one recoverer is between its won XACK and its XADD or XDEL of an id |
| Guarantees.OrderKept | impl/relredis.go:242-262 | Every pending id still has its stream entry; locks being released and entries being deleted belong to delivered ids that are out of the pending list; the entry-gone XACK hits no pending id that had been generated |
| Guarantees.LockInfoAlwaysFormed | impl/requeue.go:76-79 | The lock info of a parseable entry can always be formed, so that error return is never taken |
| Guarantees.BudgetFalls | impl/requeue.go:94-115 | The number of re-queues left falls by one with every copy and adds up with the depth to what the task began with |
| Guarantees.BudgetDecides | impl/requeue.go:94-100 | An entry goes to the dead-letter stream exactly when no re-queue is left |
| Guarantees.RetryBound | impl/requeue.go:94-115 | Over any run a task has at most as many copies as its first counter allows |
| RetryLimit.RetryLimitIff | impl/requeue.go:94-100 | Over all runs some number bounds the copies of every task exactly when MaxRetries is below the 64-bit maximum or no entry has a usable name |
| RetryLimit.Unbounded | impl/requeue.go:94-115 | With MaxRetries at the maximum, from every reachable state, a task produced there can get more than any given number of copies |
| RetryLimit.NothingRequeued | impl/requeue.go:64-74 | Where no name parses, a task never has a second copy |
| Guarantees.FreshTaskCounts | impl/lbsentry.go:22-36 | A task produced without a usable counter field: its n-th copy holds the decimal text of n, n stays within MaxRetries, its dead letter is made at copy MaxRetries and holds the text of MaxRetries + 1 beside the original's fields |
| Guarantees.PayloadSurvives | impl/requeue.go:113-119 | Along every chain of copies and into the dead letter all fields but counter and reason are the original's, and so is the data stream name |
| Outcomes.DroppedOrBuried | impl/requeue.go:161-185 | In every reachable state a task is dropped only when no dead-letter stream is configured, and dead-lettered only when one is |
| Outcomes.DlqOutcome | impl/requeue.go:153-192 | A `Claim` that reports a dead-lettering without error took the id itself, and its letter is in the dead-letter stream exactly when there is one; otherwise the task is dropped |
| Outcomes.DeadLetterSays | impl/requeue.go:64-73 | Every dead letter holds the entry's fields with its own counter and `unparseable` when the name does not parse, and otherwise its counter plus one, which is above the limit, and `max_retries_exceeded`; there is one letter per id |
| Outcomes.ClaimSucceeds | impl/requeue.go:129-138 | In the transition system, a `Claim` that has written its copy or letter succeeds, whether or not its XDEL errors |
| Runs.LeavesOnce | impl/requeue.go:102-111 | Over a whole run, across all recoveries and `DoneStream` calls, one XACK per id reports 1 |
| Runs.PendingThroughout | impl/init.go:134-141 | An id that is pending now was pending without a break, with the same delivery, since any earlier point at which it had been delivered |
| Runs.RecoveryWitness | impl/requeue.go:81-92 | A recovery that takes an id with a usable name saw its lock key absent at an earlier instant of the same call (an "entry gone" XACK of an ungenerated id aside) |
| Runs.ScanWitness | impl/init.go:134-156 | A scan that takes an id had it listed as idle, then saw its key absent, and the id was pending without a break in between |
| Runs.SlowOwnerUndisturbed | impl/requeue.go:81-92 | If the lock key is present whenever the entry is pending and idle, no scan of any client takes the entry |
| Runs.IdleSinceDelivery | impl/init.go:134-141 | A pending entry belongs to the reader that got it, and is eligible for listing exactly from MinIdleTime after its delivery on |
| EntryGone.NothingDiscarded | impl/requeue.go:56-62 | If every `Claim` names a generated id, no run ever discards a task in the entry-gone branch |
| EntryGone.StrayClaimDiscards | impl/requeue.go:56-62 | From every reachable state, a `Claim` of any id not generated yet can be followed, without another claim, by the task of this id being thrown away |
| EntryGone.ClaimKeepsTasksIff | impl/requeue.go:56-62 | After claims on generated ids only: in every continuation whose claims name generated ids no task is discarded, exactly when the id of this `Claim` has been generated |
| ClaimText.CanonicalIsRecover | impl/requeue.go:197-220 | With the text Redis prints, the call on a text is the call on the id, for every server state and every pattern of errors |
| ClaimText.OtherTextTakes | impl/requeue.go:76-111 | With any other text of the id the entry is taken whenever the key formed from the text is absent, even if its owner holds its lock |
| ClaimText.HonoursLocksIff | impl/requeue.go:76-92 | A call on a text never takes an entry whose lock is held, exactly when the text is the one Redis prints |
| Locks.KeyOutlives | impl/relredis.go:242-262 | While an entry stays pending nobody deletes its key or brings its expiry forward |
| Locks.HeartbeatProtects | impl/init.go:355-377 | If the owner renewed the key within the last heartbeat interval whenever its entry is exposed, no scan takes it |
| Heartbeat.RunOwnerInv | impl/init.go:291-303 | Keys are only ever set by the consumer the entry was delivered to |
| Heartbeat.KeyOwner | impl/init.go:297-299 | The lock key of a pending entry belongs to the consumer the entry was delivered to |
| Heartbeat.ExtenderStops | impl/init.go:363-367 | While its client has no stream of the name, an extender that looks for it never extends again |
| Heartbeat.BeatRenews | impl/init.go:369-374 | Extend cannot fail while the entry is pending, and leaves a whole interval of life |
| Heartbeat.HeartbeatBound | impl/init.go:355-377 | First Extend within the interval, each later turn at most d over its half-interval sleep: the key is present at every instant since the Lock and at least hbInterval/2 - d of life remains |
| Heartbeat.LiveOwnerUndisturbed | impl/init.go:134-156 | An owner that locked within MinIdleTime of the delivery and whose heartbeat keeps up is never disturbed by a scan |
| Finishing.OneHandle | impl/init.go:309-315 | In every reachable state an entry is reached in at most one way: a place in one reader's batch, one name of one client's `streamLocks`, or one `DoneStream` call |
| Finishing.OutOfHandsForever | impl/helpers.go:57-70 | A delivered entry that nobody reaches is never reached again and never finished, in any continuation |
| Finishing.FinishableIff | impl/relredis.go:236-248 | A pending entry that no reader still has to register can be finished exactly when some client's `streamLocks` names it or a `DoneStream` call has it |
| Finishing.Overwritten | impl/init.go:309-315 | Registering a message under a name that is in `streamLocks` leaves the pending entry registered before it unreachable: no continuation finishes it |
| Finishing.Disowned | impl/init.go:339-353 | An extender on its way out makes the entry that its client has under the name, if still pending, unfinishable in every continuation |
| SameName.SameNameStrands | impl/init.go:304-330 | From every reachable state, for every client and name, two messages of the name can be read so that the first entry is pending, cannot be finished, and its extender still runs with its key held |
| SameName.StrandedForever | impl/init.go:354-376 | The extender can go on for any length of time with the key there at every moment, because its loop looks at the name only |
| SameName.KeyStrands | impl/requeue.go:81-92 | In every continuation in which the key stays, such an entry stays pending: no scan, `Claim` or `DoneStream` takes it |
| Recovery.LoneIsProtocol | impl/requeue.go:51-139 | One command of a recovery run alone is the corresponding step of the transition system |
| Recovery.RecoverUnfolds | impl/requeue.go:51-193 | Five commands complete a call, with the outcome of its straight-line reading, for every pattern of errors |
| Recovery.RecoverEffect | impl/requeue.go:51-193 | A call returns, touches at most its own id in the pending list, without read errors takes it exactly when the owner is dead, deletes the entry of an id it took unless XADD or XDEL errors, and changes nothing when it reports the owner alive |
| Recovery.RecoverSucceeds | impl/requeue.go:51-193 | For every pattern of errors: a call succeeds exactly when the entry is pending, its owner is dead and no command it needs errors (XDEL aside); then the task is under a new id with its counter one up if a retry is left, else its letter is at the end of the dead-letter stream, if any |
| Recovery.RecoverFate | impl/requeue.go:20-42 | Without errors the outcome is re-queued, dead-lettered, skipped or lost race according to pending list, entry, lock and counter |
| Recovery.RecoverEntries | impl/requeue.go:113-133 | A call leaves every other entry of the stream as it was |
| Recovery.Client.ReQueue | impl/requeue.go:51-139 | `reQueue` as written equals the sequence of protocol steps, for every pattern of errors |
| Recovery.ScanIsPass | impl/init.go:151-171 | The steps of a scan in the transition system, left alone, go through every id of the page in order and end in the state the pass computes |
| Recovery.DoneIsProtocol | impl/relredis.go:248-262 | The three `DoneStream` steps of the transition system, left alone, are XACK, XDEL and delete-if-mine of the lock, as in the method |
| Recovery.Client.RouteToDLQ | impl/requeue.go:146-193 | A won XACK appends one letter with the counter text, the reason and the entry's other fields when a dead-letter stream is configured and XADD works, and nothing otherwise; outcome and error for every case; equal to the protocol steps |
| Recovery.Client.AckAndReAdd | impl/requeue.go:102-138 | A won XACK puts one copy with the new counter text and the entry's other fields under a new id and deletes the old entry unless XDEL errors; outcome and error for every case |
| Recovery.Client.ClaimStream | impl/relredis.go:213-229 | nil exactly when the entry is pending and in the stream, its owner is dead and no command the recovery needs errors; the task is then re-added with its counter one up if a retry is left, dead-lettered otherwise |
| Recovery.Client.ReconcileLBS | impl/init.go:130-185 | A pass recovers its page in order, counts outcomes of calls without error, stops at a done context, and does nothing when XPENDING fails |
| Recovery.Client.ProcessLBSMessages | impl/init.go:258-330 | Up to the first bad message every message's key is held for an interval and no other key changes; each name maps to its last message |
| Recovery.LastOfIsLast | impl/init.go:309-315 | The registered id of a name is that of the last message with the name |
| Reader.ReaderIsProtocol | impl/init.go:258-330 | In the transition system a reader left alone locks and registers the messages of its batch in order, each with an extender, as the method does, and reads again; it ends at the first message without usable name or with its key there |
| Reader.ReaderStops | impl/init.go:303-307 | A reader ends, with nothing else changed, when a Lock errors and when its context is done while it waits |
| Reader.ExtenderLeaves | impl/init.go:339-374 | An extender whose context is done, whose stream is no longer registered or whose Extend is refused or errors leaves the server alone, forgets the stream and ends |
| Recovery.Client.PopStreamLocks | impl/helpers.go:57-70 | Removes the name and returns what it mapped to, or reports it missing |
| Recovery.Client.DoneStream | impl/relredis.go:236-272 | XACK, XDEL, unlock in this order; the lock is only released once the entry is neither pending nor in the stream, and only the client's own lock of that entry; the stream is forgotten even on error |
| Recovery.Client.Done | impl/relredis.go:279-292 | Succeeds exactly when every held stream's commands do; then nothing is held and no held id is pending or in the stream |
| Drain.PassRecovers | impl/init.go:151-171 | A pass recovers exactly the orphans on its page and leaves live owners' entries alone |
| Drain.PassTally | impl/init.go:151-185 | Each counter of an error-free pass is the number of page ids with that fate: owner dead with a retry left, owner alive, owner dead with none left |
| Drain.PassDrains | impl/init.go:134-171 | A pass removes as many orphans as the page has room beside the live entries, or all |
| Drain.DrainBound | impl/init.go:134-171 | After n passes at most N - n(B - L) orphans are left |
| Drain.DrainsInCeil | impl/recovery_config.go:64-66 | ceil(N/(B - L)) passes leave no orphan pending, when L < B |
| Drain.OnPageIff | impl/init.go:134-141 | An idle id is on the page exactly when fewer than BatchSize idle ids are smaller |
| Drain.PassProgress | impl/init.go:134-141 | A pass makes headway exactly when fewer than BatchSize live entries stand before the first orphan |
| Drain.Starved | impl/init.go:134-141 | Otherwise no number of passes recovers anything |
| Broker.FifoNoLoss | notifs/broker.go:36-75 | In every reachable state written, in hand and queued are the accepted sends in order, each call once and with exactly the notification it was called with; nothing is written to the closed output |
| Broker.ShutdownLeftovers | notifs/broker.go:43-52 | When the runner has ended, undelivered items and panics come only from calls in flight when the flag was set |
| Broker.CleanShutdown | notifs/broker.go:77-88 | With none in flight everything accepted is delivered when the output closes and no call panics |
| Broker.InFlightCanPanicOrLose | notifs/broker.go:62-74 | From any state with a call between its flag check and its select there are runs in which it panics and runs in which its accepted item is never delivered |
| Broker.WaitingIsSafe | notifs/broker.go:67-74 | A call that waits in its select never panics, and if it is told true its notification has been written when the output is closed, in every continuation |
| Broker.SentAsGiven | notifs/broker.go:72-73 | After a call begins with a notification, all that this call holds or has put into a channel is that notification, in every continuation |
| Broker.RefusedOnlyWhen | notifs/broker.go:62-71 | `Send` returns false only when the broker has been closed or the context of the call is done |
| Broker.SendCanDeliver | notifs/broker.go:54-75 | From every reachable state of an open broker with a buffered input a new `Send` can be told true and its notification written |
| Broker.ShutdownCleanIff | notifs/broker.go:62-88 | Shutdown is clean in every continuation exactly when no call is between its flag check and its select as the flag is set |
| Slots.ComputeSlotOwnership | impl/settled.go:121-141 | The loops as written compute the canonical form |
| Slots.SameLines | impl/settled.go:139-140 | Two texts give equal results exactly when their owner lines are equal as multisets |
| Slots.SlotOwnershipCanonical | impl/settled.go:117-141 | With comma-free tokens, equal results exactly when the multisets of (node id, slot list) are equal |
| Slots.SameLineIff | impl/settled.go:135-137 | Exactly which owners print the same line |
| Slots.SlotOwnershipIff | impl/settled.go:121-141 | Any two texts give equal results exactly when their multisets of (node id, joined slots) are equal |
| Slots.LineOwner | impl/settled.go:123-137 | Reading a printed line of eight columns and slots gives back its node id and slots |
| Slots.MarkerIgnored | impl/settled.go:130-133 | The bracketed marker of an open slot makes no difference to a line, wherever it stands |
| Slots.NoSlotsNoOwner | impl/settled.go:126-128 | A line of at most eight columns has no owner |
| Slots.LinesAdd | impl/settled.go:123 | The owners of a text are those of its lines, in order |
| Slots.FieldsAdd | impl/settled.go:124 | White space separates the columns of a line, however much of it there is |
| Slots.FieldOf | impl/settled.go:124 | What has no white space is one column, unless it is empty |
| Slots.CommaCollides | impl/settled.go:136 | Whatever the columns, the text with the token `a,b` and the one with the tokens `a` and `b` have different owners and equal results |
| Slots.LineOrderIrrelevant | impl/settled.go:139 | Reordering the lines of the text changes nothing |
| Slots.SplitJoin | impl/settled.go:123 | Splitting undoes joining for pieces free of the separator |
| Sorting.SortedUnique | impl/settled.go:139 | A sorted arrangement is determined by its elements, so the algorithm behind the sort does not matter |
| Sorting.SortCanonical | impl/settled.go:139 | Sorted results are equal exactly for equal multisets |
| Sorting.LeqIff | impl/settled.go:71 | The order is that of Go strings: a prefix comes first, otherwise the first difference decides |
| Settled.EvaluateSettled | impl/settled.go:70-105 | The verdict is the declarative one; a connectivity error names the first failing address, a not-ok or disagreement error the first in address order |
| Settled.OrderIrrelevant | impl/settled.go:49-51 | The verdict is the same for every arrival order of the reports |
| Settled.UnreachableIrrelevant | impl/settled.go:66-69 | Unreachable nodes do not change the verdict of an answered set |
| Topology.SettledMeansSameOwners | impl/settled.go:26-59 | Settled exactly when some node answers, all answering nodes are ok and all see the same nodes owning the same slots |
| Subscriptions.OssClient.ReinitTopology | impl/relredis.go:312-348 | Without an answering node, with a node not ok, with disagreeing nodes or without the keyspace config the call is refused and leaves the subscriptions unchanged, and it is reported as not settled in the second and third case only; a successful one leaves one per master found, so it covers the current masters exactly when the listing worked or there are none |
| Subscriptions.OssClient.SubscribeOSS | impl/oss.go:99-116 | Exactly one tracked open subscription per master, in any visiting order |
| Subscriptions.OssClient.CloseAll | impl/oss.go:32-41 | Nothing stays open or tracked |
| Subscriptions.OssClient.Live | impl/relredis.go:340-342 | After `Init` and any calls the open set is one per master of the last listing, and covers the current masters exactly when that listing worked or there are none |
| Subscriptions.OssClient.Cleanup | impl/helpers.go:50-51 | `Done` leaves no subscription |
| Subscriptions.LastRebuildDecides | impl/relredis.go:340-342 | Only the last rebuilding call decides |
| Subscriptions.NoRebuildKeepsInit | impl/relredis.go:326-338 | Without a rebuilding call the listing of `Init` decides |
| Subscriptions.CoversUnique | impl/oss.go:107-112 | One subscription per master determines the set of masters |
| Backoff.ReadLBSStream | impl/init.go:187-256 | The loop completes exactly the turns before the first that stops it; it gives up exactly on consecutive error MaxRetries + 1, is cancelled exactly by a done context, and any other error is slept off for the delay of its streak |
| Backoff.ClosedForm | impl/init.go:231-237 | The k-th delay is min(initial * 2^k, cap) |
| Backoff.ClosedFormIff | impl/opts.go:56-70 | That holds for every k exactly when twice the cap fits in 64 bits |
| Backoff.StreakIsMaximal | impl/init.go:242-248 | The streak is the maximal run of errors before a turn: a success resets it |
| MutexKey.DecodeChannelRoundTrip | notifs/lbsmsg.go:16-36 | Decoding the channel of a lock key gives its pair or an error, and the pair exactly when the event is an expiry and neither part holds the separator |
| MutexKey.SplitOfKey | notifs/lbsmsg.go:27-30 | The key splits in two exactly when neither part holds the separator, and then around it |
| MutexKey.SharedKey | notifs/lbsmsg.go:16-18 | Exactly when two pairs share a lock key |
| MutexKey.LockKeyInjective | notifs/lbsmsg.go:16-18 | Entries with Redis ids never share a lock key, whatever their names |
| MutexKey.IdTextParts | notifs/lbsmsg.go:16-18 | The id in a key is the decimal milliseconds, a dash and the decimal sequence number |
| MutexKey.NoOverlap | configs/consts.go:23 | Occurrences of the separator never overlap |
| Decimal.ItoaAtoi | impl/lbsentry.go:31-35 | Printing and reading back is the identity on every 64-bit integer |
| Decimal.AtoiIff | impl/lbsentry.go:31-35 | `Atoi` reads exactly the texts of the 64-bit integers: digits of the number with leading zeros and an agreeing sign |
| Entry.RequeueCount | impl/requeue.go:114-115 | The counter read from a copy is one more, or 0 after the wrap |
| Entry.RetryCountReads | impl/lbsentry.go:22-36 | The counter is what the field holds; a field that is missing, no string, no 64-bit integer or negative counts as 0 |
| Entry.RetryCountOfText | impl/lbsentry.go:31-35 | A printed number is read back as it is when it is a counter, as 0 when it is negative |
| Entry.NameIff | impl/lbsentry.go:41-59 | An entry has a name exactly when its input field is a string that decodes to that non-empty name |
| Entry.SamePayloadSameName | impl/lbsentry.go:41-59 | The data stream name depends only on fields that recovery never changes |
| Entry.CloneValues | impl/lbsentry.go:64-70 | The copy equals the original |

## Left out

- go-redis, redsync and the Redis server beyond the command effects in `Redis.dfy`.
- JSON decoding of `lbs-input`: an arbitrary parser is a parameter.
- The check that ClusterModeOSS has a cluster client: the constructor refuses any other, so it cannot fail later.
- Trimming of the dead-letter stream by MAXLEN: messages routed are counted, not messages retained.
- Keyspace notifications on their way to the user (fan-in, dropping, `listenKsp` scheduling): a `Claim` can happen
  at any time, on any id, generated or not. Its text is the canonical one in the transition system; `ClaimText.dfy`
  has other texts for a call that is left alone.
- Finishing.FinishableIff: does not say when a message still in a reader's batch will be registered, which depends
  on the messages before it.
- Applying the keyspace configuration on nodes and `clusterInfoField`: one-branch reads; they enter as whether they
  succeeded and as the state text of a report.
- Jitter of the scan interval, metrics, logging, error wrappers, options and builders: no effect on the protocol.
- Concurrent second `Close` of the broker (it closes the output twice), an unbuffered input, and a reader of the
  output: a write that blocks is a write step not taken yet.
- startExtendingKey, the concurrent forms of the reader and of `DoneStream`: steps of the transition system, not
  methods; `Recovery.Client` has the sequential forms, run without interference.
- `consecutiveErrors` is unbounded, since 2^63 errors in a row cannot happen.
- Progress (that a scan eventually runs): only bounds per pass are stated.
