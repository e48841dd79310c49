# A verified model of pubsub-c

pubsub-c is an in-process message broker. Subscribers own bounded priority queues and
subscribe to dotted topics. A publish walks from its topic up to the root and pushes a
reference-counted message into the queue of every subscriber it meets; a topic can keep its last
message as a *sticky* for later subscribers. This project models the broker, its queues, its topic
language and the two macro libraries underneath, and proves what holds for every input, every run
and every interleaving.

The layers, bottom up:

| file | what it models |
|---|---|
| `LinkedLists.dfy` | the doubly linked lists of `utlist.h` on the heap, against sequences of nodes |
| `HashIndexes.dfy` | the hash index of `uthash.h` on the heap: application order, bucket chains, doubling |
| `PriorityLists.dfy` | what a queue means: one list sorted by priority and arrival, cut to capacity |
| `BucketQueues.dfy` | `psqueue_b.c` on the heap: ten linked buckets and a free list, proved to be that list |
| `RingQueues.dfy` | `psqueue_ll.c`: the ring buffer, and its agreement with the bucket queue |
| `QueueProtocol.dfy` | the concurrent protocol around one queue: atomic steps of any number of threads |
| `QueueCallbacks.dfy` | exactly when non_empty_cb runs in those interleavings, and how often |
| `Topics.dfy` | ancestors walked and tested, flag suffixes, reply topics |
| `Messages.dfy` | the message store with its reference counts |
| `Registry.dfy` | the topic map as a list of topics in creation order |
| `TopicIndexes.dfy` | the hash index carries the topic list along: fetching, creating, freeing and cleaning topics on it |
| `BrokerModel.dfy` | every call as a function from state to state |
| `BrokerRefs.dfy`, `BrokerRegistry.dfy`, `BrokerHistory.dfy` | what each call keeps: reference counts, the two-way lists, the history |
| `BrokerEffects.dfy` | what subscribing, unsubscribing and freeing change and leave alone; an unsubscribe undoes a subscribe |
| `BrokerSafety.dfy` | what each call references, releases and reaches is live at that moment |
| `BrokerDelivery.dfy` | who receives an undisturbed publish, through which subscriptions, and how often |
| `BrokerCounts.dfy` | the count an undisturbed ps_publish returns, subscriber by subscriber, and when it is the documented one |
| `BrokerSubsCounts.dfy` | what ps_subs_count counts, and when that is the documented number |
| `BrokerRuns.dfy` | all runs of whole calls: the invariant, conservation, leak freedom |
| `BrokerAnswers.dfy` | what callers are answered: new messages and subscribers, gets and their order, loss and topic counts |
| `BrokerInterleavings.dfy` | all interleavings of publishes and subscribes, push by push, with the calls that take no lock; a get passes the semaphore and dequeues in two steps |
| `BrokerProgress.dfy` | what the count, on_empty and replies come to in every one of those interleavings |
| `BrokerWholeCalls.dfy` | every run of whole calls is one of those interleavings |
| `BrokerExamples.dfy` | runs on which a documented meaning fails, and what holds in every reachable state |
| `InterleavingExamples.dfy` | interleavings in which a get changes what a publish returns or what on_empty lets in |
| `Brokers.dfy` | the calls of `pubsub.c` step by step on mutable state, proved to compute the functions |

How the layers meet. The methods of class `BucketQueue` compute `PriorityLists.Push` and a pull of the
head, and `RingQueues.RunBuckets` whole runs of calls; the class `Broker` and the protocol use those same
functions for a queue. The methods of class `HashIndex` keep an ordered collection with unique keys, and
`TopicIndexes` proves that its elements are, name by name, the topics of `Registry` through every
creation, lookup, freeing and cleaning. `BrokerModel` says what a call computes, `Brokers` does it in
steps, and every lemma about `BrokerModel` is therefore about the calls. A publish or subscribe whose
steps nobody interrupts in `BrokerInterleavings` is the one of `BrokerModel`, result included, and every
run of whole calls is an interleaving (`BrokerWholeCalls`).

Conventions. A message, a subscriber and a thread are named by numbers; a freed message leaves the
store and its number is never used again, so "live" means "in the store". `log`, `handles`, `ops`,
`fired`, `returned`, `sent` and `got` are history variables. A C string is a string without the character NUL, which is
what the methods that copy a topic into a buffer require. A caller-supplied priority must be below 10: the string
parser guarantees it (`Topics.ParsedPriorityInRange`), a caller-supplied flag struct does not, and the
queue indexes an array of ten with it.

Where code and documentation differ, the model follows the code:

- `ps_publish` is documented to return the number of subscribers the message was delivered to
  (`src/pubsub.h:425-431`). It counts visible plain stores. So it counts one subscriber twice
  (`BrokerExamples.CopiesAreCounted`, a reachable publish that returns 2 for one subscriber) and a
  delivery by eviction not at all (`BrokerExamples.EvictingPublishIsNotCounted`, one that returns 0 for
  one subscriber). The exact condition comes in two forms.
  - *Undisturbed* (`BrokerCounts`, `BrokerDelivery`, `BrokerExamples.ReachablePublishCounts`): when no
    `ps_get` runs during the publish and none is under way when it begins, the state before the call decides.
    A subscriber's share is the number of its visible attempts that find a free cell; it is the documented
    share if and only if that number is 1, or is 0 and no visible attempt evicts; the whole count is the
    documented one if and only if the surpluses of the subscribers add up to 0.
  - *Among other threads* (`BrokerProgress`): `ps_get` takes no lock, so that state no longer decides.
    `InterleavingExamples.GetMakesACopyCount` starts where every share is the documented one, and a get
    between two pushes makes the publish return 2 for its only subscriber. In every interleaving the
    same two conditions hold with "finds a free cell" and "evicts" read off the queue each attempt met
    (`ShareAmongThreads`, `CountAmongThreads`, `CodesAmongThreads`).

  `ps_call` gives up at once when the count is 0, which is exactly when no visible attempt finds a free cell,
  also when requests were delivered by eviction (`BrokerProgress.GivesUpAmongThreads`;
  undisturbed `BrokerCounts.CallGivesUpIff`).
- An `on_empty` subscription is to receive only when `ps_waiting` says 0 (`src/pubsub.h:315-316`). The test
  and the push are two steps, and `ps_waiting` reads the semaphore. Undisturbed, a subscriber with
  such subscriptions only gets at most one copy per publish. Among gets it gets one plain store more for each
  get it begins during the publish (`BrokerProgress.OnEmptyStoresAmongThreads`, reached in
  `InterleavingExamples.GetLetsASecondCopyIn`), and a getter between its two steps makes the push meet a
  full queue and be counted as a loss (`InterleavingExamples.GetterMakesOnEmptyLose`).
- `ps_overflow` is documented as the number of messages that could not be stored
  (`src/pubsub.h:417-423`). It counts the pushes that were refused and those that evicted an older message
  (`BrokerRuns.OverflowCountsLosses`). The documented number results if and only if no push met a full queue
  ending in a lower priority (`BrokerRuns.OverflowIsDocumentedIff`), so it does when all pushes for the
  subscriber have one priority; the run of `EvictingPublishIsNotCounted` is one on which the two differ.
- `ps_subs_count` is documented as the number of subscribers of a topic (`src/pubsub.h:400-407`). It counts
  the visible subscriptions at the topic and its ancestors, without the root. It is the number of the topic's
  own visible subscribers if and only if nobody is visible at a proper ancestor other than the root or, for
  the root itself, nobody is visible there (`BrokerSubsCounts.SubsCountIsOfTopicIff`). It fails in the
  reachable states of `BrokerExamples.RootIsNotCounted` (0 for a root with a subscriber) and
  `BrokerExamples.AncestorsAreCounted` (2 for "a.b" with one subscriber, which listens to "a" too). Read as
  the number of subscribers a recursive publish would meet, it is right if and only if their repeated
  subscriptions are as many as the visible ones at the root (`BrokerSubsCounts.SubsCountIsReachedIff`).
- The callback of `ps_set_non_empty_cb` is documented as called when the queue is empty and a new message arrives
  (`src/pubsub.h:377-383`). It also runs when installed while messages wait, and after a push it runs if and
  only if that push stored plainly, the callback is installed and the semaphore is one at the look
  (`QueueCallbacks.CallbackDueIff`). So it can run for a message that arrives behind another, when a getter
  passes the semaphore in between (`QueueCallbacks.CallbackOnNonEmptyQueue`); it never runs more often than
  pushes store plainly and callbacks are installed (`QueueCallbacks.CallbacksBounded`).
- Two overlapping calls of `ps_overflow` on one subscriber can wrap its counter below zero
  (`QueueProtocol.OverlappingCallersWrap`). `QueueProtocol.CounterNeverWrapsIff` is the exact condition: it
  never wraps, however the pending calls finish, if and only if no call reads the counter while another
  one holds a nonzero reading.

## Model

| member | source | states |
|---|---|---|
| LinkedLists.Append | src/utlist.h:639-651 | DL_APPEND2: with `head.prev` as tail pointer, appending to a well-linked list gives the well-linked concatenation, on an empty list too |
| LinkedLists.Delete | src/utlist.h:706-723 | DL_DELETE2: deleting any member (only, first, middle, last) leaves exactly the other nodes in order, well linked; the deleted node still points to its old successor |
| LinkedLists.DeleteFirst | src/utlist.h:713-715 | deleting the head leaves the tail of the list, headed by the old second node |
| LinkedLists.Last | src/psqueue_b.c:48 | `head->prev` of a non-empty list is its last node |
| LinkedLists.Count | src/utlist.h:728-732 | DL_COUNT2 counts every node once |
| LinkedLists.Search | src/utlist.h:428-433 | LL_SEARCH_SCALAR2 returns the first node holding the value, and null exactly when no node holds it |
| LinkedLists.DrainSafe | src/psqueue_b.c:82-93 | DL_FOREACH_SAFE2 with a body that deletes the visited node visits every node of the original list once, in order, and leaves the list empty |
| PriorityLists.PushIsTruncatedInsert | src/psqueue_b.c:38-57 | a push inserts behind everything of at least its priority and keeps the first `cap` entries; what is kept and what is lost make up the insertion |
| PriorityLists.PushLosesAtMostOne | src/psqueue_b.c:45-56 | the return code says what was lost: nothing; the new entry, only when nothing queued is of lower priority; or the last entry, of strictly lower priority; contents are conserved |
| PriorityLists.InsertAt | src/psqueue_b.c:74-76 | insertion splits the list at the first lower priority and leaves both parts as they were |
| PriorityLists.InsertSorted | src/psqueue_b.c:74-76 | insertion keeps the order and adds exactly the new entry |
| PriorityLists.EvictThenInsert | src/psqueue_b.c:45-54 | evicting first and inserting afterwards gives the same list as inserting and then dropping the last entry |
| PriorityLists.StableSortIsStable | src/psqueue_b.c:38-117 | the reference sort of a push log is sorted, a permutation of the log, and keeps the arrival order within every priority |
| PriorityLists.StableOrderUnique | src/psqueue_b.c:38-117 | a sorted list is determined by its entries of each priority in order, so the stable sort is the only such list |
| PriorityLists.KeepsStableTopK | src/psqueue_b.c:38-117 | after any run of pushes the queue holds exactly the first `cap` entries of the stable priority sort of everything pushed |
| PriorityLists.PushOfPriority | src/psqueue_b.c:38-57 | seen at one priority, a push appends the new entry, drops the newest one, or does nothing |
| PriorityLists.RunConserves | src/psqueue_b.c:100-130 | in every run of pushes and pulls the queue is sorted and within capacity, and pushed = pulled + queued + lost as multisets |
| PriorityLists.RunIsFifoPerPriority | src/psqueue_b.c:59-76 | in every run, pulls of one priority followed by what waits are a subsequence of the pushes of that priority, evictions interleaved |
| BucketQueues.FlattenSorted | src/psqueue_b.c:18-23 | the buckets read from 9 down to 0 form a sorted list |
| BucketQueues.FlattenAppend | src/psqueue_b.c:74-76 | appending to the bucket of a priority is the sorted insertion |
| BucketQueues.FlattenEvict | src/psqueue_b.c:46-53 | dropping the newest message of the lowest non-empty bucket drops the last entry |
| BucketQueues.FlattenGet | src/psqueue_b.c:59-69 | taking the oldest message of the highest non-empty bucket takes the head |
| BucketQueues.BucketQueue.constructor | src/psqueue_b.c:25-36 | a new queue is empty with `sz` free nodes, all lists well linked and disjoint |
| BucketQueues.BucketQueue.OthersStayLinked | src/psqueue_b.c:18-23 | relinking one list leaves all other lists linked, because no node is in two lists |
| BucketQueues.BucketQueue.GetAvailable | src/psqueue_b.c:38-57 | a free node when there is one; otherwise the node of the last entry, cleared, when its priority is below the limit; otherwise nothing changes |
| BucketQueues.BucketQueue.EvictNewest | src/psqueue_b.c:46-53 | evicting from the lowest non-empty bucket takes its newest message out of the queue and leaves the node in hand |
| BucketQueues.BucketQueue.Get | src/psqueue_b.c:59-72 | returns and removes the head of the list, or NULL exactly on an empty queue; the node joins the free list |
| BucketQueues.BucketQueue.Insert | src/psqueue_b.c:74-76 | a node in hand joins its bucket: the sorted insertion |
| BucketQueues.BucketQueue.Push | src/psqueue_b.c:100-117 | the heap implementation computes the specified push: contents, return code, the one lost entry; the semaphore equals the contents; nodes are conserved |
| BucketQueues.BucketQueue.Pull | src/psqueue_b.c:119-130 | without concurrency, a pull takes the head and fails exactly on an empty queue |
| BucketQueues.BucketQueue.Waiting | src/psqueue_b.c:132-135 | reports the number of queued messages |
| RingQueues.RingQueue.constructor | src/psqueue_ll.c:17-25 | a new ring of any size, 0 included, is empty |
| RingQueues.RingQueue.Push | src/psqueue_ll.c:34-51 | appends and posts unless full; when full nothing changes; head stays (tail + count) mod size |
| RingQueues.RingQueue.Pull | src/psqueue_ll.c:53-67 | takes the oldest message, and fails exactly when empty |
| RingQueues.RingQueue.Waiting | src/psqueue_ll.c:69-75 | reports the number of queued messages |
| RingQueues.RunRing | src/psqueue_ll.c:34-75 | a ring buffer object answers every sequence of calls as specified from its contents |
| RingQueues.RunBuckets | src/psqueue_b.c:100-135 | a bucket queue object answers every sequence of calls as specified from its contents and capacity |
| RingQueues.ImplementationsAgree | src/psqueue_ll.c:34-75 | for every call sequence at one constant priority and equal capacity, 0 included, the specified answers of ring and bucket queue are the same |
| RingQueues.Compare | src/psqueue_ll.c:17-75 | so two new objects of one size, a ring and a bucket queue, give the same codes, messages and counts to every sequence of calls at one priority |
| QueueProtocol.StepMoves | src/psqueue_b.c:100-130 | every step moves one program counter, and a mutex changes hands exactly as that counter says |
| QueueProtocol.NodesPreserved | src/psqueue_b.c:38-76 | every step keeps: free nodes + message nodes (+ the one in a pusher's hand) = capacity, and the nodes hold what the completed operations say |
| QueueProtocol.SemaphoreStep | src/psqueue_b.c:107-127 | every step keeps: semaphore + pullers past the wait + a store not yet posted = messages; so a dequeue never meets an empty queue |
| QueueProtocol.WakeUpsStep | src/pubsub.c:274-294 | every step keeps: with a callback and a positive semaphore, either it ran since the semaphore was last zero or a pusher is about to look |
| QueueProtocol.LossesStep | src/pubsub.c:274-285 | every step keeps: losses = overflow counter + values subtracted by ps_overflow + a loss not yet counted |
| QueueProtocol.InvStep | src/psqueue_b.c:100-135 | every enabled step of any thread keeps the whole protocol invariant |
| QueueProtocol.RunInv | src/psqueue_b.c:100-135 | the invariant holds after every interleaving of any number of threads |
| QueueProtocol.SuccessfulWaitGetsMessage | src/psqueue_b.c:119-130 | in every interleaving a puller that passed the semaphore dequeues a message, never NULL, even when an eviction came between; it is the head of the sequential queue |
| QueueProtocol.NodesAndSemaphoreBalance | src/psqueue_b.c:100-135 | whenever nobody is inside the queue: semaphore + pullers past the wait = messages, and free + messages = capacity |
| QueueProtocol.MutualExclusion | src/psqueue_b.c:102-127 | no two threads are inside the queue, or inside the broker, at once |
| QueueProtocol.NoDeadlock | src/psqueue_b.c:100-130 | a thread in the middle of a call can always go on, unless it waits for the queue mutex, and then its holder can; an idle thread can get when the semaphore is positive and enter the broker when nobody is in it |
| QueueProtocol.NoLostWakeUp | src/pubsub.c:287-288 | with the callback installed, a positive semaphore and no pusher between its post and its test, the callback ran since the semaphore was last zero; overflow path and installation on a non-empty queue included; the other direction is QueueCallbacks.CallbackDueIff |
| QueueCallbacks.CodesStep | src/psqueue_b.c:100-117 | every step keeps: the code a publisher carries is the one the sequential queue returns for its push |
| QueueCallbacks.CallbackDueIff | src/pubsub.c:279-291 | at every moment of every interleaving a thread is about to run the callback if and only if its last step came from a push that returned Ok, with the callback installed by the last ps_set_non_empty_cb and a semaphore of one, or from installing it with a positive semaphore |
| QueueCallbacks.FiresAreAlarms | src/pubsub.c:279-291 | whoever runs the callback was alarmed so by its step before, and whoever was alarmed runs it as its next step |
| QueueCallbacks.CallbacksBounded | src/pubsub.h:377-383 | the callback ran, or is about to run, at most once for each push that stored plainly and once for each time it was installed |
| QueueCallbacks.CallbackOnNonEmptyQueue | src/pubsub.c:287-288 | an interleaving in which the callback is about to run for a message that arrived behind another |
| QueueCallbacks.WakeUpIsNotLost | src/pubsub.c:287-288 | NoLostWakeUp on the steps of the run: some step ran the callback, and the semaphore has been positive ever since |
| QueueCallbacks.SentIsCalled | src/psqueue_b.c:100-101 | what publishers sent, of which the other theorems speak, is what they called ps_queue_push with, priorities included |
| QueueProtocol.TrafficStep | src/psqueue_b.c:100-130 | every step keeps: what pullers received is what the replayed queue gave, and what publishers sent is what it took plus the push in flight |
| QueueProtocol.LossesAreAccounted | src/pubsub.c:553-557 | at every moment of every run, with any number of ps_overflow callers: sent = received + waiting + overflow counter + values returned + what belongs to the push in progress |
| QueueProtocol.InterleavingsAreFifo | src/psqueue_b.c:59-76 | at every moment of every interleaving: what pullers received of one priority, in the order they dequeued it, then what waits of it, is a subsequence of what publishers pushed of it, in the order of their calls |
| QueueProtocol.CalmCounterInRange | src/pubsub.c:553-557 | while no call reads over another's nonzero reading, the counter and every pending reading stay in range |
| QueueProtocol.CounterNeverWrapsIff | src/pubsub.c:553-557 | the counter never goes below zero, at any point of a run and however pending calls then finish, if and only if no call read it while another held a nonzero reading |
| QueueProtocol.SoloCounterNeverNegative | src/pubsub.c:553-557 | one ps_overflow at a time meets that condition |
| QueueProtocol.OverlappingCallersWrap | src/pubsub.c:553-557 | two overlapping ps_overflow calls can both subtract the same count: the counter reaches -1, which wraps in the program |
| Topics.ParentCovers | src/pubsub.c:629-635 | the proper ancestors of a topic, by the prefix test, are exactly the ancestors of what the truncation loop leaves |
| Topics.ChainIsAncestors | src/pubsub.c:590-636 | the walk visits a topic if and only if the prefix test accepts it, for all strings, empty, with leading or double dots |
| Topics.ChainShrinks | src/pubsub.c:625-636 | visited topics get strictly shorter, so none is visited twice, and the last one is the root |
| Topics.StrLen | src/pubsub.c:629 | strlen stops at the first NUL of the buffer |
| Topics.Truncate | src/pubsub.c:629-635 | the in-place loop cuts the buffer's string back to before its last dot, or to nothing |
| Topics.StrDup | src/pubsub.c:582 | the private copy holds the topic |
| Topics.Walk | src/pubsub.c:590-636 | looping over the truncated buffer visits exactly the chain of ancestors, in order, and terminates |
| Topics.FindSpace | src/pubsub.c:404 | strchr finds the first space, so the topic is everything before it |
| Topics.SwitchFlag | src/pubsub.c:410-428 | the flag switch at a position, with the one-character look-ahead of `p` |
| Topics.ParseSubscription | src/pubsub.c:391-430 | the parsing loop yields the space-free topic and the fold of the flag characters over the struct's flags |
| Topics.ParseRendered | src/pubsub.c:409-430 | parsing any list of suffix macros yields the flags present OR-ed with the struct's and the last digit as priority |
| Topics.SuffixRoundTrip | src/pubsub.h:546-550 | for every space-free topic and every list of suffix macros in any order and repetition, parsing the concatenation gives back the topic and exactly those flags |
| Topics.ParsedPriorityInRange | src/pubsub.c:423-427 | parsing cannot make a priority of 10 or more |
| Topics.DecimalInjective | src/pubsub.c:683 | printing with `%u` is injective |
| Topics.ReplyTopicsIsolated | src/pubsub.c:683 | `$r.N` is never an ancestor-or-self of `$r.M` for N != M, even when one numeral is a prefix of the other |
| Topics.ReplyChain | src/pubsub.c:679-693 | a reply is offered at its own topic, at `$r` and at the root, nowhere else |
| HashIndexes.MaskIsRemainder | src/uthash.h:441-444 | the mask of HASH_TO_BKT, bit by bit, is the remainder by the power of two, so it finds the bucket an item belongs to |
| HashIndexes.ShiftIsQuotient | src/uthash.h:939-941 | shifting by log2 divides by the power of two |
| HashIndexes.BucketSplits | src/uthash.h:441-444 | under twice the buckets an item's bucket is the old one or the old one plus the old number |
| HashIndexes.LinkFront | src/uthash.h:860-869 | linking in front of a chain keeps every chain linked, counted, and holding exactly the items its hash demands |
| HashIndexes.Unlink | src/uthash.h:882-895 | HASH_DEL_IN_BKT removes exactly this item and keeps all chains |
| HashIndexes.MoveItem | src/uthash.h:947-961 | one moved item: chain links, counts, expand_mult and nonideal_items stay right |
| HashIndexes.MoveChain | src/uthash.h:944-962 | the inner loop moves every item of a chain, reading each successor before relinking |
| HashIndexes.Redistribute | src/uthash.h:942-963 | the two loops put every item of the table in the chain its hash demands under the doubled count; nonideal_items is the sum of max(0, count - ideal) |
| HashIndexes.IdealChainIsCeiling | src/uthash.h:939-941 | the shift-and-mask form of ideal_chain_maxlen is the ceiling of items / new buckets |
| HashIndexes.MultAfterIs | src/uthash.h:949-954 | expand_mult from chain length and ideal alone: 0 up to the ideal; beyond it the number of ideal-length chains the bucket fills, or the number of items beyond the ideal when that is less |
| HashIndexes.DoublingSplits | src/uthash.h:943-963 | after doubling, an item of old bucket b is in bucket b or b + old size |
| HashIndexes.AppendOrder | src/uthash.h:289-295 | HASH_APPEND_LIST appends to the application order |
| HashIndexes.DetachOrder | src/uthash.h:472-482 | deleting from the application order patches head, tail and neighbours so that exactly the other elements remain |
| HashIndexes.HashIndex.constructor | src/uthash.h:526-573 | the empty index satisfies the conditions of HASH_FSCK |
| HashIndexes.HashIndex.Find | src/uthash.h:176-184 | returns an element with the key, and null exactly when no element has it, for any hash function |
| HashIndexes.HashIndex.FindInBucket | src/uthash.h:838-857 | scanning one chain finds the key when it is there and null otherwise |
| HashIndexes.HashIndex.MakeTable | src/uthash.h:223-253 | a fresh table has 32 = 2^5 empty buckets |
| HashIndexes.HashIndex.Expand | src/uthash.h:926-976 | doubling keeps the table conditions, num_buckets = 2^log2_num_buckets, and sets ideal_chain_maxlen, nonideal_items, expand_mult, ineff_expands and noexpand as specified |
| HashIndexes.HashIndex.AddToTable | src/uthash.h:860-879 | the element is added, and the table doubles exactly when its chain reaches the threshold and expansion is not inhibited |
| HashIndexes.HashIndex.Add | src/uthash.h:407-426 | adding appends the element to the order and keeps all conditions, table creation and expansion included |
| HashIndexes.HashIndex.Delete | src/uthash.h:461-488 | deleting removes exactly this element and keeps all conditions; with the last element the table goes |
| HashIndexes.HashIndex.RemoveFromTable | src/uthash.h:483-485 | the table half of a deletion keeps chains, counts and num_items |
| HashIndexes.HashIndex.DeleteMatching | src/uthash.h:1153-1155 | iterating with a body that deletes the visited element visits every original element once and leaves exactly the others, in order |
| Messages.NewCounted | src/pubsub.c:104-125 | a new message has one reference and a fresh identity; all other counts stay exact; its topic and flags are in BrokerAnswers.NewMessageSays |
| Messages.RefCounted | src/pubsub.c:216-220 | taking a reference keeps every count equal to the references that exist |
| Messages.UnrefCounted | src/pubsub.c:222-235 | dropping a reference keeps all counts exact and frees the message exactly when it was the last |
| Registry.PutLookup | src/pubsub.c:241-272 | creating, changing or freeing a topic changes what is found at its own name and nowhere else |
| Registry.PutKeepsTopicsOk | src/pubsub.c:241-257 | names stay unique and space-free, and no topic stays with neither subscribers nor sticky |
| Registry.WithoutSays | src/pubsub.c:481-487 | deleting a subscriber from a topic's list removes that one only |
| Registry.SnocSays | src/pubsub.c:434-444 | appending a subscriber not yet listed keeps everyone listed once |
| Registry.StickyRefsPut | src/pubsub.c:594-608 | changing a topic exchanges the old sticky's reference for the new one's |
| Registry.CleanLookup | src/pubsub.c:559-574 | cleaning unsticks exactly the topics the prefix covers and leaves every subscription |
| Registry.CleanRefs | src/pubsub.c:564-568 | the references cleaning drops are exactly those of the covered stickies |
| Registry.CleanKeepsTopicsOk | src/pubsub.c:559-574 | cleaning frees exactly the topics it leaves unused; names stay unique |
| Registry.WalkMeetsAncestors | src/pubsub.c:590-636 | the walk meets, exactly once each, the subscriptions of all topics the prefix test accepts as ancestors |
| TopicIndexes.FetchTopic | src/pubsub.c:259-263 | the index returns the element of the topic the list search finds, and null exactly when it finds none |
| TopicIndexes.CreateTopic | src/pubsub.c:251-257 | creating a topic on the index appends it to the list |
| TopicIndexes.FreeTopic | src/pubsub.c:241-249 | freeing a topic on the index removes it from the list |
| TopicIndexes.PutTopic | src/pubsub.c:241-272 | fetch, create when needed, free when left unused: the index follows the specified change of the topic list |
| TopicIndexes.KeepIsClean | src/pubsub.c:559-574 | deleting the elements of the topics left with nothing leaves the cleaned list |
| TopicIndexes.CleanTopics | src/pubsub.c:559-574 | ps_clean_sticky over the index visits every topic once, in creation order, each visited topic's own sticky and subscribers decide whether it is deleted, and the index follows the specified cleaning |
| BrokerRefs.PushToBalance | src/pubsub.c:274-285 | references after a push + the lost entry's = references before + the one taken for the push |
| BrokerRefs.PushToRefs | src/pubsub.c:274-294 | a push keeps every reference count exact, also when it evicts an earlier copy of the same message |
| BrokerRefs.DeliverRefs | src/pubsub.c:612-621 | the delivery loop keeps every count exact while the publisher holds its reference |
| BrokerRefs.UpdateStickyRefs | src/pubsub.c:592-611 | replacing or clearing a sticky keeps every count exact, also when it is the published message itself |
| BrokerRefs.PublishRefs | src/pubsub.c:576-641 | a publish consumes one caller reference and keeps every count exact |
| BrokerRefs.SubscribeRefs | src/pubsub.c:385-462 | a subscribe that pushes stickies keeps every count exact |
| BrokerRefs.UnsubscribeAllRefs | src/pubsub.c:514-536 | unsubscribing from everything moves no reference |
| BrokerRefs.GetRefs | src/pubsub.c:538-540 | a get hands the queue's reference to the caller |
| BrokerRefs.FlushRefs | src/pubsub.c:359-367 | a flush drops exactly the queue's references |
| BrokerRefs.FreeSubscriberRefs | src/pubsub.c:318-324 | freeing a subscriber leaves no reference of its queue behind |
| BrokerRefs.CleanStickyRefs | src/pubsub.c:559-574 | cleaning keeps every count exact |
| BrokerRegistry.PublishRegistry | src/pubsub.c:576-641 | a publish keeps the two-way lists, and everyone it meets is a live subscriber |
| BrokerRegistry.SubscribeRegistry | src/pubsub.c:432-462 | a subscribe enters both lists once, or neither when already subscribed |
| BrokerRegistry.UnsubscribeRegistry | src/pubsub.c:476-500 | an unsubscribe leaves both lists and keeps them in agreement |
| BrokerRegistry.LeaveAllSays | src/pubsub.c:519-532 | the loop of ps_unsubscribe_all removes this subscriber from exactly the listed topics and leaves all other subscriptions and every sticky |
| BrokerRegistry.UnsubscribeAllRegistry | src/pubsub.c:514-536 | ps_unsubscribe_all keeps the two-way lists, changes no other subscriber's list and no sticky |
| BrokerRegistry.CleanStickyRegistry | src/pubsub.c:559-574 | cleaning keeps the two-way lists although it deletes topics while it iterates |
| BrokerHistory.PublishHistory | src/pubsub.c:576-641 | a publish moves the accounts and the stickies exactly as its log entries say |
| BrokerHistory.SubscribeHistory | src/pubsub.c:448-456 | a subscribe with stickies keeps the accounts and changes no sticky |
| BrokerHistory.FlushHistory | src/pubsub.c:359-367 | a flush keeps the accounts: every message waiting becomes a message taken |
| BrokerHistory.FlushCounts | src/pubsub.c:359-367 | a flush empties the queue and returns how many messages it held |
| BrokerHistory.UncollectedParts | src/pubsub.c:279-285 | losses not yet reported + losses reported = refused attempts + evicting attempts, for every log |
| BrokerHistory.EvictionsMeetLower | src/psqueue_b.c:45-56 | no push for a subscriber evicted if and only if none met a full queue ending in a lower priority |
| BrokerHistory.OnePriorityNeverEvicts | src/psqueue_b.c:45-56 | pushes of one common priority never meet one |
| BrokerHistory.CleanStickyHistory | src/pubsub.c:559-574 | cleaning clears exactly the stickies the log entry says |
| BrokerEffects.SubscribeSays | src/pubsub.c:432-462 | a subscribe fails exactly when the topic is already listed, changing nothing; otherwise it appends one subscription with the parsed flags to that topic and one name to the subscriber's list, and no other lookup changes |
| BrokerEffects.UnsubscribeSays | src/pubsub.c:476-500 | an unsubscribe fails exactly when the topic is not listed; otherwise it removes that one subscription, and no sticky and no other subscriber changes |
| BrokerEffects.PutBack | src/pubsub.c:241-257 | giving a topic its old contents back restores the topic map exactly, also when the topic had been created for the change |
| BrokerEffects.UnsubscribeUndoesSubscribe | src/pubsub.c:385-500 | an unsubscribe after a successful subscribe, whatever flags either string carries, succeeds and restores the topic map and all lists |
| BrokerEffects.FreeSubscriberSays | src/pubsub.c:318-324 | freeing a subscriber removes it from every topic, empties its queue, and changes no other subscriber and no sticky |
| BrokerDelivery.PublishMeetsExactlyAncestors | src/pubsub.c:590-636 | a recursive publish meets the subscriptions of all ancestors, each once; a non-recursive one those of its exact topic |
| BrokerDelivery.DeliverAttemptsAll | src/pubsub.c:612-621 | without on_empty, one push attempt per subscription, in order, each at its own priority |
| BrokerDelivery.PublishAttemptsEachOnce | src/pubsub.c:576-641 | without on_empty, the attempts of a publish are exactly the subscriptions met, once each, in walk order |
| BrokerDelivery.DeliverPerSubscriber | src/pubsub.c:612-621 | a subscriber's queue and loss counter after a delivery depend on its own subscriptions only; nothing else of it changes |
| BrokerDelivery.PublishPerSubscriber | src/pubsub.c:576-641 | the same for a whole publish |
| BrokerDelivery.OnEmptyAtMostOnce | src/pubsub.c:614-616 | undisturbed, where the semaphore is what the queue holds: offering a message through on_empty subscriptions only adds one copy to an empty queue and none to any other |
| BrokerDelivery.OnEmptySubscriberGetsOne | src/pubsub.c:612-621 | undisturbed: a subscriber whose subscriptions on the chain are all on_empty gets at most one copy per publish; among gets see BrokerProgress.OnEmptyStoresAmongThreads |
| BrokerDelivery.CopiesOffered | src/pubsub.c:590-636 | the walk offers a subscriber one copy for each topic on the chain that it lists |
| BrokerDelivery.PublishOffersPerTopic | src/pubsub.c:576-641 | the same for a whole publish; a non-recursive one offers a copy only for its exact topic |
| BrokerDelivery.RepliesAreIsolated | src/pubsub.c:679-693 | a reply published to one call's topic leaves another call's subscriber untouched |
| BrokerDelivery.ReplyReachesCaller | src/pubsub.c:679-693 | a reply published to a call's own topic is then the one message in the call's queue, and nothing is lost |
| BrokerDelivery.AttemptCount | src/pubsub.c:617-619 | one attempt is counted exactly when it is visible and lost nothing; unless refused, the message is in the queue |
| BrokerDelivery.PublishCount | src/pubsub.c:612-677 | the result of ps_publish is at most ps_subs_count plus the visible subscriptions at the root, with equality for a recursive publish without on_empty and with room everywhere |
| BrokerSubsCounts.CountIsZeroIff | src/pubsub.c:643-677 | ps_subs_count is 0 if and only if nobody is visible at the topic or an ancestor, the root aside |
| BrokerSubsCounts.SubsCountIsOfTopicIff | src/pubsub.h:400-407 | ps_subs_count is the number of the topic's visible subscribers if and only if nobody is visible at a proper ancestor other than the root; for the root itself, if and only if nobody is visible there |
| BrokerSubsCounts.SubsCountIsReachedIff | src/pubsub.h:400-407 | it is the number of visible subscribers a recursive publish meets if and only if their repeated subscriptions are as many as the visible ones at the root; the exact difference otherwise |
| BrokerCounts.OutcomesTell | src/pubsub.c:612-621 | the count of a delivery is the number of its visible plain stores, and its outcomes are what the log gains |
| BrokerCounts.OutcomesPerSubscriber | src/pubsub.c:612-621 | undisturbed: a subscriber's outcomes are those of its own attempts replayed on its own queue; on_empty leaves out all but those without it, and the first one when the queue is empty |
| BrokerCounts.PushAtLeast | src/psqueue_b.c:38-57 | a push adds to the entries of each priority and up, as far as there are cells |
| BrokerCounts.ReplayExplicit | src/psqueue_b.c:38-57 | attempt i stores plainly iff i free cells were left; else it evicts iff fewer than capacity of the entries and earlier offers have its priority or more; else it is refused |
| BrokerCounts.ShareExplicit | src/pubsub.c:617-619 | a subscriber's share of the count is the number of its visible attempts that find a free cell |
| BrokerCounts.AcceptedExplicit | src/pubsub.c:274-285 | a subscriber is delivered to, visibly, exactly when a visible attempt finds a free cell or evicts |
| BrokerCounts.ShareIsDocumentedIff | src/pubsub.h:425-431 | the share is 1 when delivered to and 0 otherwise, if and only if one visible attempt finds a free cell, or none does and none evicts |
| BrokerCounts.PublishCountIsSum | src/pubsub.c:576-641 | the result of ps_publish is the sum of the subscribers' shares |
| BrokerCounts.PublishSharePerSubscriber | src/pubsub.c:576-641 | undisturbed: share, delivery and the exact condition for each subscriber of a publish, from the state before the call |
| BrokerCounts.PublishCountIsDocumentedIff | src/pubsub.h:425-431 | undisturbed: the result is the number of subscribers delivered to if and only if the surpluses, read off the state before, add up to 0, in particular when every share is the documented one |
| BrokerCounts.CallGivesUpIff | src/pubsub.c:686-688 | undisturbed: ps_publish returns 0, and ps_call gives up, if and only if no visible attempt finds a free cell; the request then reached exactly those for whom a visible attempt evicts |
| BrokerCounts.GainsUnlessRefused | src/pubsub.c:274-294 | a push adds a copy unless it is refused; it evicts exactly when the queue is full and ends in a lower priority |
| BrokerCounts.PublishCountsStores | src/pubsub.c:617-619 | undisturbed, against copies: the result is at most the visible copies gained, and equals them if and only if no visible attempt evicts, read off the state before |
| BrokerExamples.EvictingPublishIsNotCounted | src/pubsub.c:617-619 | a reachable publish that delivers to a visible subscriber by eviction and returns 0; afterwards the overflow counter is 1 although no push was refused |
| BrokerExamples.CopiesAreCounted | src/pubsub.c:612-621 | a reachable publish that delivers to one subscriber and returns 2 |
| BrokerExamples.RootIsNotCounted | src/pubsub.c:643-645 | a reachable state with a visible subscriber at the root, for which ps_subs_count says 0 |
| BrokerExamples.AncestorsAreCounted | src/pubsub.c:653-672 | a reachable state with one subscriber at "a.b" and "a", for which ps_subs_count of "a.b" says 2 |
| BrokerExamples.ReachablePublishCounts | src/pubsub.c:576-641 | undisturbed: shares, their conditions and the whole count, for every owned message of every reachable state |
| BrokerDelivery.StickiesInOrder | src/pubsub.c:300-306 | the scan selects exactly the covered topics that have a sticky, each once, in creation order |
| BrokerDelivery.ChildStickyOffers | src/pubsub.c:448-456 | a child_sticky subscribe attempts to push each sticky at or below its topic once, in creation order, at the subscription's parsed priority |
| BrokerDelivery.NoStickyOffersNothing | src/pubsub.c:448-456 | under no_sticky a new subscription leaves log, messages, queue and loss counter as they were, whatever stickies there are |
| BrokerDelivery.PlainStickyOffer | src/pubsub.c:451-454 | with neither flag the log gains exactly one attempt for the topic's own sticky, at the subscription's parsed priority, and the queue what that push gives; without a sticky nothing changes |
| BrokerSafety.LostIsLive | src/psqueue_b.c:48-50 | the message an eviction or refusal releases is live at that moment |
| BrokerSafety.SlotIsLive | src/pubsub.c:599-608 | the sticky a publish releases is live, and the published message still is afterwards |
| BrokerSafety.PublishIsSafe | src/pubsub.c:576-641 | along a publish: old sticky, new sticky, every push with what it evicts, every subscriber, and the final release are live in turn |
| BrokerSafety.SubscribeIsSafe | src/pubsub.c:385-462 | every sticky offered by a subscribe, and what its push evicts, is live in turn |
| BrokerSafety.UnsubscribeAllIsSafe | src/pubsub.c:514-536 | each topic pointer of the subscriber's list still leads to a topic when the loop follows it, although the loop frees topics |
| BrokerSafety.FlushIsSafe | src/pubsub.c:359-367 | every message a flush releases is live in turn |
| BrokerSafety.CleanStickyIsSafe | src/pubsub.c:559-574 | every sticky a clean releases is live in turn, also when two slots hold one message |
| BrokerRuns.AllowedCallsAreSafe | src/pubsub.c:216-235 | for each of the thirteen calls, allowed in a state of the invariant, all it references, releases or reaches is live at that moment |
| BrokerRuns.NextRefs | src/pubsub.c:216-235 | every call keeps all reference counts exact and all queues sorted and within capacity |
| BrokerRuns.NextRegistry | src/pubsub.c:241-272 | every call keeps the two-way registry |
| BrokerRuns.NextHistory | src/pubsub.c:274-294 | every call keeps stickies and loss accounts as the log says |
| BrokerRuns.NextInv | src/pubsub.c:385-641 | every allowed call keeps the whole broker invariant |
| BrokerRuns.ReachableInv | src/pubsub.c:385-641 | the invariant holds after every run of allowed calls |
| BrokerRuns.RunsNeverTouchFreedMemory | src/pubsub.c:216-235 | in every reachable state every allowed call can run, and all it references, releases or reaches on the way is live |
| BrokerRuns.ReferencesConserved | src/pubsub.c:216-235 | in every reachable state each live message's count = caller handles + occurrences in queues + stickies > 0, everything referred to is live, and stat_live_msg is the number of live messages |
| BrokerRuns.ListsAgree | src/pubsub.c:432-500 | in every reachable state a topic lists a subscriber once if and only if the subscriber lists the topic once; no topic is unused and no name has a space |
| BrokerRuns.StickyIsLastWord | src/pubsub.c:592-611 | after every run a topic's sticky is the fold of the history: last exact publish, last covering clean, nothing else |
| BrokerRuns.AttemptsAreAccounted | src/pubsub.c:274-285 | after every run: attempts = taken + waiting + counted losses + reported losses, per subscriber |
| BrokerRuns.OverflowCountsLosses | src/pubsub.h:417-423 | after every run: counted and reported losses = refused attempts + evicting attempts, hence the refused ones, as documented, if and only if no attempt evicted |
| BrokerRuns.OverflowIsDocumentedIff | src/pubsub.h:417-423 | after every run: the documented number if and only if no push met a full queue ending in a lower priority, the queues being those the history replays; so it is when all pushes for the subscriber have one priority |
| BrokerAnswers.NewMessageSays | src/pubsub.c:104-125 | in every reachable state: the message returned did not exist and nothing referred to it; it is live with exactly the topic and flags asked for, one reference and one new handle; everything else is unchanged |
| BrokerAnswers.PublishSetsSticky | src/pubsub.c:592-611 | after a publish the sticky of the message's topic is that message when its flag says so and none otherwise; every other topic keeps its sticky |
| BrokerAnswers.PublishOfNew | src/pubsub.c:104-125 | ps_new_msg then ps_publish: the message is its topic's sticky exactly when asked to be, and meets its topic alone or all ancestors exactly as asked |
| BrokerAnswers.RefSays | src/pubsub.c:216-220 | ps_ref_msg adds one reference, the caller's, and ps_unref_msg then restores the state |
| BrokerAnswers.CleanStickySays | src/pubsub.c:559-574 | ps_clean_sticky unsticks exactly the topics the prefix given covers and changes no subscription, queue or handle |
| BrokerAnswers.NewSubscriberSays | src/pubsub.c:309-316 | the subscriber returned did not exist; it is live with the capacity asked for, an empty queue, no subscriptions and counter 0; everything else is unchanged |
| BrokerAnswers.SubscribeOfNew | src/pubsub.c:309-316 | a subscribe with what ps_new_subscriber returned succeeds and enrols that subscriber and no other |
| BrokerAnswers.UnsubscribeAllAnswer | src/pubsub.c:514-536 | ps_unsubscribe_all returns the number of topics that listed the subscriber, and none does afterwards |
| BrokerAnswers.OverflowAnswer | src/pubsub.c:553-557 | in every reachable state: the value ps_overflow returns and those it returned before are the refused and the evicting attempts; the sum returned grows by exactly that value, a second call returns 0, and no other subscriber changes |
| BrokerAnswers.GetSays | src/pubsub.c:538-540 | ps_get gives nothing exactly on an empty queue; else the head, of the highest priority waiting, with its reference, and leaves the rest in order |
| BrokerAnswers.GetsAreFifo | src/psqueue_b.c:59-76 | in every reachable state: what a subscriber took in order, then what waits at a priority, is a subsequence of what publishes and subscribes pushed for it at that priority, and pushed = taken + waiting + lost |
| BrokerRuns.NothingLeaks | tests/tests.c:10-14 | once all subscribers are freed and all handles released, ps_clean_sticky("") leaves no live message, no live subscriber and no topic |
| BrokerRuns.FreedForever | src/pubsub.c:222-235 | a freed message is never live again in any continuation, so it is freed at most once |
| BrokerInterleavings.PushStep | src/pubsub.c:274-294 | one push of a publish or subscribe in progress keeps everything and touches only what is live, whatever happened since the last one |
| BrokerInterleavings.UnlockedStep | src/pubsub.c:216-235 | a call that takes no lock keeps everything in the middle of another thread's publish or subscribe |
| BrokerInterleavings.WaitStep | src/psqueue_b.c:119-123 | a getter passing the semaphore in mid-publish keeps everything |
| BrokerInterleavings.DequeueStep | src/psqueue_b.c:124-130 | a getter past the semaphore always finds a live message of a live subscriber, whatever happened since, and taking it keeps everything |
| BrokerInterleavings.PublishIsDefined | src/pubsub.c:576-641 | a publish of a message the caller owns, whenever the lock is free, finds the message live and every subscriber it meets in place |
| BrokerInterleavings.DoInv | src/pubsub.c:576-641 | every step of every thread keeps the invariant and touches only what is live |
| BrokerInterleavings.FineRunInv | src/pubsub.c:576-641 | the invariant holds between any two steps of every interleaving |
| BrokerInterleavings.InterleavedStepsAreSafe | src/pubsub.c:216-235 | every step that any interleaving can take finds the messages and subscribers it needs and touches no freed one |
| BrokerInterleavings.NobodyIsStuck | src/pubsub.c:576-641 | in every interleaving the lock holder can go on, calls without the lock need not wait for it, a get passes whenever its semaphore is positive and then finds a message, and with the lock free any publish or subscribe can begin |
| BrokerInterleavings.LockHolderEnds | src/pubsub.c:612-636 | each step of a publish or subscribe brings its end nearer and no other thread's step puts it off, so it ends after a bounded number of its own steps |
| BrokerInterleavings.InterleavedReferencesConserved | src/pubsub.c:216-235 | between any two steps a live message's count = caller handles + queue cells + stickies + the publish in progress |
| BrokerInterleavings.InterleavedHistory | src/pubsub.c:274-285 | between any two steps the attempts are accounted for and each sticky is the last word of the history |
| BrokerInterleavings.UninterruptedPublish | src/pubsub.c:576-641 | the steps of a publish that nobody interrupts, with no getter under way, are the call as a whole: same state, same result |
| BrokerInterleavings.UninterruptedSubscribe | src/pubsub.c:385-462 | the same for a subscribe, its sticky offers included |
| BrokerWholeCalls.WholeRunsAreInterleavings | src/pubsub.c:385-641 | every state reached by a run of whole calls, of all thirteen kinds, is reached by an interleaving, between calls with no getter under way |
| BrokerProgress.CountIsLogged | src/pubsub.c:612-640 | in every interleaving, at every moment of a publish: `ret` so far is the visible plain stores logged since it began, and it is what the call returns |
| BrokerProgress.CodesAmongThreads | src/pubsub.c:614-617 | each attempt is a plain store if the queue it met had a free cell, else an eviction if fewer than capacity entries there had its priority or more, else a refusal; an on_empty attempt met only entries already claimed by getters, so it is a plain store exactly when these do not fill the queue |
| BrokerProgress.ShareAmongThreads | src/pubsub.h:425-431 | a share is the number of visible attempts that met a free cell; it is the documented one if and only if one did, or none did and none evicted, whatever happened in between |
| BrokerProgress.CountAmongThreads | src/pubsub.h:425-431 | the count is the sum of the shares, and the number of subscribers delivered to if and only if the surpluses add up to 0, whatever happened in between |
| BrokerProgress.GivesUpAmongThreads | src/pubsub.c:686-688 | ps_publish returns 0, and ps_call gives up, if and only if no visible attempt met a free cell, whatever happened in between |
| BrokerProgress.CountBoundAmongThreads | src/pubsub.c:643-677 | the count so far and the visible subscriptions still to come are at most ps_subs_count plus the visible subscriptions at the root |
| BrokerProgress.OnEmptyStoresAmongThreads | src/pubsub.c:614-616 | a subscriber with on_empty subscriptions only gets at most one plain store per publish, and one more for each get it begins during the publish |
| BrokerProgress.OnEmptyCopiesAmongThreads | src/pubsub.c:614-616 | the copies it holds and took since the publish began are at most one, and one more for each get under way then or begun since |
| BrokerProgress.ReplyNeverAttempted | src/pubsub.c:679-693 | in no interleaving is a reply to one call attempted, or still to be attempted, for another call's subscriber |
| InterleavingExamples.GetMakesACopyCount | src/pubsub.c:612-621 | a reachable state in which every share is the documented one and the undisturbed publish returns 1; a get between its two pushes makes it return 2 for its one subscriber |
| InterleavingExamples.GetLetsASecondCopyIn | src/pubsub.c:614-616 | an interleaving in which one publish stores two copies for a subscriber with on_empty subscriptions only |
| InterleavingExamples.GetterMakesOnEmptyLose | src/psqueue_b.c:119-135 | an interleaving in which a getter between semaphore_wait and its dequeue lets an on_empty push meet a full queue and be counted as a loss |
| Brokers.DeliverConcat | src/pubsub.c:590-621 | delivering topic by topic is one delivery along the concatenated subscriptions, counts added |
| Brokers.Broker.constructor | src/pubsub.c:58-64 | a new broker is the empty state |
| Brokers.Broker.NewMessage | src/pubsub.c:104-125 | creates a message with exactly the topic and flags given, one reference and a fresh identity |
| Brokers.Broker.Release | src/pubsub.c:222-235 | a caller gives up its reference |
| Brokers.Broker.PushSubscriberQueue | src/pubsub.c:274-294 | computes the specified push and its return value, touching only live messages, also when the lost entry is the message pushed; and non_empty_cb is due exactly on a plain store into an empty queue |
| Brokers.Broker.DeliverTopic | src/pubsub.c:612-621 | the inner loop computes the specified delivery and count over one topic |
| Brokers.Broker.ApplySticky | src/pubsub.c:592-611 | the in-place sticky rule, topic creation and freeing included, computes the specified exchange |
| Brokers.Broker.WalkAndDeliver | src/pubsub.c:590-636 | the outer loop delivers to exactly the subscriptions the walk meets and terminates |
| Brokers.Broker.PublishMessage | src/pubsub.c:576-641 | ps_publish computes the specified state and count and keeps the invariant |
| Brokers.Broker.PushChildSticky | src/pubsub.c:296-307 | the scan pushes the stickies under the prefix in topic order |
| Brokers.Broker.SubscribeTo | src/pubsub.c:385-462 | ps_subscribe_flags computes the specified state and result and keeps the invariant |
| Brokers.Broker.OfferStickies | src/pubsub.c:448-456 | a new subscription is offered nothing, its own topic's sticky, or all stickies at or below it, as its flags say (BrokerDelivery.PlainStickyOffer, NoStickyOffersNothing and ChildStickyOffers say what these are) |
| Brokers.Broker.LeaveTopic | src/pubsub.c:486-488 | deletes one subscription and frees the topic when it becomes unused |
| Brokers.Broker.UnsubscribeFrom | src/pubsub.c:464-500 | ps_unsubscribe computes the specified state and result and keeps the invariant |
| Brokers.Broker.UnsubscribeFromAll | src/pubsub.c:514-536 | the loop of ps_unsubscribe_all computes the specified state and count |
| Brokers.Broker.AddSubscriber | src/pubsub.c:309-316 | returns a new subscriber, the last one, live, empty and unsubscribed |
| Brokers.Broker.GetMessage | src/pubsub.c:538-540 | ps_get takes the head of the queue and its reference |
| Brokers.Broker.FlushQueue | src/pubsub.c:359-367 | the loop of ps_flush empties the queue, releases every message and counts them |
| Brokers.Broker.RemoveSubscriber | src/pubsub.c:318-324 | ps_free_subscriber unsubscribes, flushes and retires the subscriber |
| Brokers.Broker.ReadOverflow | src/pubsub.c:553-557 | ps_overflow returns the counter as it was and resets it |
| Brokers.Broker.CleanStickies | src/pubsub.c:559-574 | ps_clean_sticky, deleting topics while it iterates, computes the specified cleaning |
| Brokers.Broker.CountSubscriptions | src/pubsub.c:643-677 | ps_subs_count adds the visible subscriptions along the walk, without the root |

## Left out

- Message values: payload variants, varargs, coercions, setters, `ps_dup_msg` and the response topic field. A message is its topic, its two flags and its count.
- `ps_has_topic`, `ps_has_topic_prefix`, `ps_has_topic_suffix`: one string comparison each (`ps_has_topic` is documented as equality and is a prefix test).
- `ps_call` and `ps_wait_one` as blocking compositions; what is special to them is proved: a reply reaches its own caller and no other.
- The `_many` variants and the initial topics of `ps_new_subscriber`: loops over the modelled calls. `ps_publish(NULL)` and `ps_new_msg` with a null topic return at once.
- Brokers.Broker.PushSubscriberQueue: says when each callback is due but runs none, because callbacks and destructors are opaque; `QueueProtocol` models when `non_empty_cb` fires, pulls in between.
- The synchronisation wrappers and the deadline arithmetic: mutexes and semaphores are atomic steps, a timed-out wait is a step that changes nothing.
- Brokers.Broker.GetMessage: is one atomic call; its two steps among those of a publish are in `BrokerInterleavings`, and those inside the queue in `QueueProtocol`.
- Brokers.Broker.FlushQueue: runs undisturbed; with pushes in between it is the series of gets and releases of `BrokerInterleavings`.
- Brokers.Broker.ReadOverflow: is one atomic step where the source has two; the two are in `QueueProtocol`.
- BrokerInterleavings.DoInv: the sticky rule of a publish, a clean, and the list changes of the lock holder are single steps, because they push nothing and nobody else reads those lists without the lock. A push is one step too; its own steps inside the queue are in `QueueProtocol`.
- BrokerDelivery.OnEmptyAtMostOnce: one queue that nobody gets from; `BrokerProgress.OnEmptyStoresAmongThreads` has gets in between.
- BrokerDelivery.OnEmptySubscriberGetsOne: the undisturbed case; `BrokerProgress.OnEmptyStoresAmongThreads` and `OnEmptyCopiesAmongThreads` are for every interleaving.
- BrokerCounts.OutcomesPerSubscriber: the undisturbed case; `BrokerProgress.CodesAmongThreads` is for every interleaving.
- BrokerCounts.PublishSharePerSubscriber: the undisturbed case; `BrokerProgress.ShareAmongThreads` is for every interleaving.
- BrokerCounts.PublishCountIsDocumentedIff: the undisturbed case, the only one the state before the call decides; `BrokerProgress.CountAmongThreads` is for every interleaving.
- BrokerCounts.CallGivesUpIff: the undisturbed case; `BrokerProgress.GivesUpAmongThreads` is for every interleaving.
- BrokerCounts.PublishCountsStores: the undisturbed case, because among gets the copies gained can be gone before the call returns; `BrokerProgress.CountIsLogged` is for every interleaving.
- BrokerExamples.ReachablePublishCounts: the undisturbed case of reachable states; the theorems of `BrokerProgress` start from any state an interleaving reaches.
- Brokers.Broker: keeps topics, subscribers and messages as records in sequence and map fields; pointer identity and aliasing between them are not captured. A topic's identity is its name, so the comparison of a freed topic's address in ps_unsubscribe is a comparison of names. The linked lists and the hash index under these fields are proved in `LinkedLists`, `BucketQueues`, `HashIndexes` and `TopicIndexes`.
- `ps_free_queue`: its loops are `LinkedLists.DrainSafe`; the freeing of memory itself is not modelled.
- 32-bit wrap of reference counts, statistics, bucket counts and the reply counter; the overflow counter is an integer whose wrap is shown by `OverlappingCallersWrap`.
- Allocation failure, and with it the recovery branches of uthash.h.
- The Jenkins hash is a parameter, any function of the key.
- The parts of uthash.h and utlist.h the broker does not use: sorting, selection, replacement, bloom filters, in-order insertion, circular and singly linked lists.
- Tests, benchmark, example, build files and the embedded port files.
